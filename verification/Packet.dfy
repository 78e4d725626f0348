/**
 * The length-prefixed UDP packet of the direct transport.
 *
 * Ids and payloads are byte strings.  All integers travel most significant byte first.
 */
module Packet {
  import opened Common
  import opened BigEndian

  const MAGIC: seq<byte> := [0x54, 0x56, 0x4F, 0x41]  // "TVOA"
  const VERSION: byte := 1
  const VOICE: byte := 2
  const MAX_PAYLOAD := 1200
  const HEADER_LENGTH := 28

  type uint64 = x: int | 0 <= x < 0x1_0000_0000_0000_0000
  type int64 = x: int | -0x8000_0000_0000_0000 <= x < 0x8000_0000_0000_0000

  datatype Packet = Packet(
    kind: byte, room: seq<byte>, source: seq<byte>, sequence: uint32, captureMs: int64, payload: seq<byte>)

  // ----- Encoding -----

  /** Magic, version, kind, two zero bytes, then the numbers and the three lengths. */
  function Header(p: Packet): (header: seq<byte>)
    ensures |header| == HEADER_LENGTH
  {
    MAGIC + [VERSION, p.kind] + ToBytes(0, 2) + ToBytes(p.sequence, 4) + ToBytes(Max(0, p.captureMs), 8)
    + ToBytes(|p.source|, 2) + ToBytes(|p.room|, 2) + ToBytes(|p.payload|, 4)
  }

  /** The sizes encodePacket accepts. */
  predicate Fits(p: Packet) {
    |p.payload| <= MAX_PAYLOAD && |p.room| <= 0xffff && |p.source| <= 0xffff
  }

  /** Empty when the packet does not fit. */
  function Encoded(p: Packet): seq<byte> {
    if Fits(p) then Header(p) + p.source + p.room + p.payload else []
  }

  // ----- Decoding -----

  predicate HasHeader(data: seq<byte>) {
    |data| >= HEADER_LENGTH && data[..4] == MAGIC && data[4] == VERSION
  }

  function SourceLength(data: seq<byte>): nat
    requires HasHeader(data)
  {
    FromBytes(data[20..22])
  }

  function RoomLength(data: seq<byte>): nat
    requires HasHeader(data)
  {
    FromBytes(data[22..24])
  }

  function PayloadLength(data: seq<byte>): nat
    requires HasHeader(data)
  {
    FromBytes(data[24..28])
  }

  /** How many bytes the header announces, itself included. */
  function Extent(data: seq<byte>): nat
    requires HasHeader(data)
  {
    HEADER_LENGTH + SourceLength(data) + RoomLength(data) + PayloadLength(data)
  }

  /** The conversion from unsigned to signed 64 bits. */
  function ToSigned64(x: uint64): int64 {
    if x < 0x8000_0000_0000_0000 then x else x - 0x1_0000_0000_0000_0000
  }

  function Decoded(data: seq<byte>): (r: Option<Packet>)
  {
    if HasHeader(data) && Extent(data) <= |data| then
      var s := HEADER_LENGTH + SourceLength(data);
      var r := s + RoomLength(data);
      Powers();
      FromBytesBound(data[8..12]);
      FromBytesBound(data[12..20]);
      Some(Packet(
        data[5], data[s..r], data[HEADER_LENGTH..s], FromBytes(data[8..12]),
        ToSigned64(FromBytes(data[12..20])), data[r..Extent(data)]))
    else None
  }

  // ----- Round trip and framing -----

  lemma Slices(
    a: seq<byte>, flags: seq<byte>, sequence: seq<byte>, capture: seq<byte>,
    source: seq<byte>, room: seq<byte>, payload: seq<byte>, body: seq<byte>)
    requires |a| == 6 && |flags| == 2 && |sequence| == 4 && |capture| == 8
    requires |source| == 2 && |room| == 2 && |payload| == 4
    ensures var data := a + flags + sequence + capture + source + room + payload + body;
            && data[..4] == a[..4] && data[4] == a[4] && data[5] == a[5]
            && data[8..12] == sequence && data[12..20] == capture
            && data[20..22] == source && data[22..24] == room && data[24..28] == payload
  {
  }

  lemma HeaderFields(p: Packet, body: seq<byte>)
    requires Fits(p)
    ensures var data := Header(p) + body;
            && HasHeader(data) && data[5] == p.kind
            && FromBytes(data[8..12]) == p.sequence
            && FromBytes(data[12..20]) == Max(0, p.captureMs)
            && SourceLength(data) == |p.source| && RoomLength(data) == |p.room| && PayloadLength(data) == |p.payload|
  {
    hide ToBytes, FromBytes, Power256;
    Slices(MAGIC + [VERSION, p.kind], ToBytes(0, 2), ToBytes(p.sequence, 4), ToBytes(Max(0, p.captureMs), 8),
           ToBytes(|p.source|, 2), ToBytes(|p.room|, 2), ToBytes(|p.payload|, 4), body);
    assert (MAGIC + [VERSION, p.kind])[..4] == MAGIC;
    Powers();
    FromToBytes(p.sequence, 4);
    FromToBytes(Max(0, p.captureMs), 8);
    FromToBytes(|p.source|, 2);
    FromToBytes(|p.room|, 2);
    FromToBytes(|p.payload|, 4);
  }

  lemma BodySlices(header: seq<byte>, source: seq<byte>, room: seq<byte>, payload: seq<byte>, tail: seq<byte>)
    requires |header| == HEADER_LENGTH
    ensures var data := header + source + room + payload + tail;
            var s := HEADER_LENGTH + |source|;
            var r := s + |room|;
            && data == header + (source + room + payload + tail)
            && data[HEADER_LENGTH..s] == source && data[s..r] == room && data[r..r + |payload|] == payload
  {
  }

  /** Where everything lies: "TVOA", version 1, the kind, two zero bytes, number, time and three lengths, most
      significant byte first, then source, room and payload. Longer than 1200 or 65535 bytes, nothing is written. */
  lemma Layout(p: Packet)
    ensures Encoded(p) == [] <==> |p.payload| > 1200 || |p.room| > 65535 || |p.source| > 65535
    ensures Encoded(p) != [] ==>
              var data := Encoded(p);
              var s, r := 28 + |p.source|, 28 + |p.source| + |p.room|;
              && |data| == r + |p.payload|
              && data[..8] == [0x54, 0x56, 0x4F, 0x41, 1, p.kind, 0, 0]
              && FromBytes(data[8..12]) == p.sequence && FromBytes(data[12..20]) == Max(0, p.captureMs)
              && FromBytes(data[20..22]) == |p.source| && FromBytes(data[22..24]) == |p.room|
              && FromBytes(data[24..28]) == |p.payload|
              && data[28..s] == p.source && data[s..r] == p.room && data[r..] == p.payload
  {
    if Fits(p) {
      HeaderFields(p, p.source + p.room + p.payload);
      FirstEight(p);
      hide Header, FromBytes, HasHeader;
      BodyLayout(Header(p), p.source, p.room, p.payload);
    }
  }

  lemma BodyLayout(header: seq<byte>, source: seq<byte>, room: seq<byte>, payload: seq<byte>)
    requires |header| == 28
    ensures var data := header + source + room + payload;
            var s, r := 28 + |source|, 28 + |source| + |room|;
            && data == header + (source + room + payload) && |data| == r + |payload| && data != []
            && data[..8] == header[..8] && data[28..s] == source && data[s..r] == room && data[r..] == payload
  {
  }

  lemma FirstEight(p: Packet)
    ensures Header(p)[..8] == [0x54, 0x56, 0x4F, 0x41, 1, p.kind, 0, 0]
  {
    assert ToBytes(0, 1) == [0 as byte];
    assert ToBytes(0, 2) == [0 as byte, 0];
    hide ToBytes;
  }

  /** A packet that fits comes back field by field, whatever is appended to its bytes; a negative
      capture time comes back as zero. */
  lemma RoundTrip(p: Packet, tail: seq<byte>)
    requires Fits(p)
    ensures Decoded(Encoded(p) + tail) == Some(p.(captureMs := Max(0, p.captureMs)))
    ensures HasHeader(Encoded(p) + tail) && Extent(Encoded(p) + tail) == |Encoded(p)|
  {
    hide Header, HasHeader, FromBytes;
    HeaderFields(p, p.source + p.room + p.payload + tail);
    BodySlices(Header(p), p.source, p.room, p.payload, tail);
  }

  lemma SliceOfPrefix(data: seq<byte>, n: nat, i: nat, j: nat)
    requires i <= j <= n <= |data|
    ensures data[..n][i..j] == data[i..j]
  {
  }

  lemma HeaderOfPrefix(data: seq<byte>, n: nat)
    requires HasHeader(data) && HEADER_LENGTH <= n <= |data|
    ensures HasHeader(data[..n]) && data[..n][5] == data[5]
    ensures data[..n][8..12] == data[8..12] && data[..n][12..20] == data[12..20]
    ensures SourceLength(data[..n]) == SourceLength(data) && RoomLength(data[..n]) == RoomLength(data)
    ensures PayloadLength(data[..n]) == PayloadLength(data)
  {
    hide FromBytes;
    assert data[..n][..4] == data[..4] && data[..n][4] == data[4];
    SliceOfPrefix(data, n, 8, 12);
    SliceOfPrefix(data, n, 12, 20);
    SliceOfPrefix(data, n, 20, 22);
    SliceOfPrefix(data, n, 22, 24);
    SliceOfPrefix(data, n, 24, 28);
  }

  /** Packets are self-delimiting: of an accepted packet, from whomever it comes, the prefixes that
      are accepted are exactly those that reach its announced extent, and they decode alike. */
  lemma PrefixesOf(data: seq<byte>, n: nat)
    requires Decoded(data).Some? && n <= |data|
    ensures Decoded(data[..n]) == if n < Extent(data) then None else Decoded(data)
  {
    hide FromBytes, SourceLength, RoomLength, PayloadLength;
    if n >= HEADER_LENGTH {
      HeaderOfPrefix(data, n);
      if n >= Extent(data) {
        var s := HEADER_LENGTH + SourceLength(data);
        var r := s + RoomLength(data);
        SliceOfPrefix(data, n, HEADER_LENGTH, s);
        SliceOfPrefix(data, n, s, r);
        SliceOfPrefix(data, n, r, Extent(data));
      }
    }
  }

  /** In particular every strict prefix of an encoded packet is rejected. */
  lemma StrictPrefixRejected(p: Packet, n: nat)
    requires Fits(p) && n < |Encoded(p)|
    ensures Decoded(Encoded(p)[..n]) == None
  {
    RoundTrip(p, []);
    assert Encoded(p) + [] == Encoded(p);
    hide Encoded, Decoded, HasHeader;
    PrefixesOf(Encoded(p), n);
  }

  // ----- The source's writers, readers and loops -----

  method AppendU16(data: seq<byte>, value: uint16) returns (out: seq<byte>)
    ensures out == data + ToBytes(value, 2)
  {
    DivModUnique(value, 256, value / 256, value % 256);
    out := data + [value / 256 % 256];
    out := out + [value % 256];
    assert ToBytes(value, 2) == ToBytes(value / 256, 1) + [value % 256];
    assert ToBytes(value / 256, 1) == [] + [value / 256 % 256];
  }

  method AppendU32(data: seq<byte>, value: uint32) returns (out: seq<byte>)
    ensures out == data + ToBytes(value, 4)
  {
    out := data + [value / 0x100_0000 % 256];
    out := out + [value / 0x1_0000 % 256];
    out := out + [value / 256 % 256];
    out := out + [value % 256];
    assert value / 256 / 256 == value / 0x1_0000 && value / 256 / 256 / 256 == value / 0x100_0000;
    assert ToBytes(value / 256 / 256 / 256, 1) == [] + [value / 0x100_0000 % 256];
    assert ToBytes(value / 256 / 256, 2) == ToBytes(value / 256 / 256 / 256, 1) + [value / 0x1_0000 % 256];
    assert ToBytes(value / 256, 3) == ToBytes(value / 256 / 256, 2) + [value / 256 % 256];
  }

  /** value >> 8 * k. */
  function Shifted(value: nat, k: nat): nat {
    if k == 0 then value else Shifted(value, k - 1) / 256
  }

  /** The loop over the shifts 56, 48, ..., 0; `left` of the eight bytes are still to be written. */
  method AppendU64(data: seq<byte>, value: uint64) returns (out: seq<byte>)
    ensures out == data + ToBytes(value, 8)
  {
    out := data;
    var left := 8;
    while left > 0
      invariant 0 <= left <= 8
      invariant out == data + ToBytes(Shifted(value, left), 8 - left)
    {
      left := left - 1;
      out := out + [Shifted(value, left) % 256];
    }
  }

  method ReadU16(data: seq<byte>, pos: nat) returns (r: Option<uint16>, pos': nat)
    ensures r.Some? <==> pos + 2 <= |data|
    ensures r.Some? ==> r.value == FromBytes(data[pos..pos + 2]) && pos' == pos + 2
  {
    if pos + 2 > |data| {
      return None, pos;
    }
    var s := data[pos..pos + 2];
    assert s[..1] == [data[pos]] && s[..1][..0] == [];
    assert FromBytes(s[..1]) == data[pos];
    var high: int, low: int := data[pos], data[pos + 1];
    r, pos' := Some(256 * high + low), pos + 2;
  }

  method ReadU32(data: seq<byte>, pos: nat) returns (r: Option<uint32>, pos': nat)
    ensures r.Some? <==> pos + 4 <= |data|
    ensures r.Some? ==> r.value == FromBytes(data[pos..pos + 4]) && pos' == pos + 4
  {
    if pos + 4 > |data| {
      return None, pos;
    }
    var s := data[pos..pos + 4];
    assert s[..3][..2] == s[..2] && s[..2][..1] == s[..1] && s[..1][..0] == [];
    assert FromBytes(s[..1]) == s[0];
    assert FromBytes(s[..2]) == 256 * FromBytes(s[..1]) + s[1];
    assert FromBytes(s[..3]) == 256 * FromBytes(s[..2]) + s[2];
    var b0: int, b1: int, b2: int, b3: int := data[pos], data[pos + 1], data[pos + 2], data[pos + 3];
    r, pos' := Some(0x100_0000 * b0 + 0x1_0000 * b1 + 256 * b2 + b3), pos + 4;
  }

  method ReadU64(data: seq<byte>, pos: nat) returns (r: Option<uint64>, pos': nat)
    ensures r.Some? <==> pos + 8 <= |data|
    ensures r.Some? ==> r.value == FromBytes(data[pos..pos + 8]) && pos' == pos + 8
  {
    if pos + 8 > |data| {
      return None, pos;
    }
    var out: nat := 0;
    for i := 0 to 8
      invariant out == FromBytes(data[pos..pos + i])
    {
      var s := data[pos..pos + i + 1];
      assert s[..i] == data[pos..pos + i];
      out := 256 * out + data[pos + i];
    }
    Powers();
    FromBytesBound(data[pos..pos + 8]);
    r, pos' := Some(out), pos + 8;
  }

  method EncodePacket(p: Packet) returns (out: seq<byte>)
    ensures out == Encoded(p)
  {
    if |p.payload| > MAX_PAYLOAD || |p.room| > 0xffff || |p.source| > 0xffff {
      return [];
    }
    hide ToBytes;
    out := MAGIC + [VERSION, p.kind];
    out := AppendU16(out, 0);
    out := AppendU32(out, p.sequence);
    out := AppendU64(out, Max(0, p.captureMs));
    out := AppendU16(out, |p.source|);
    out := AppendU16(out, |p.room|);
    out := AppendU32(out, |p.payload|);
    out := out + p.source + p.room + p.payload;
  }

  /** decodePacket; the datagram has at least one byte. */
  method DecodePacket(data: seq<byte>) returns (r: Option<Packet>)
    ensures r == Decoded(data)
  {
    if |data| < 24 || data[..4] != MAGIC || data[4] != VERSION {
      return None;
    }
    hide FromBytes;
    var pos := 6;
    var ignored, sourceLen, roomLen;
    var sequence, payloadLen;
    var captureMs;
    ignored, pos := ReadU16(data, pos);
    if ignored.None? { return None; }
    sequence, pos := ReadU32(data, pos);
    if sequence.None? { return None; }
    captureMs, pos := ReadU64(data, pos);
    if captureMs.None? { return None; }
    sourceLen, pos := ReadU16(data, pos);
    if sourceLen.None? { return None; }
    roomLen, pos := ReadU16(data, pos);
    if roomLen.None? { return None; }
    payloadLen, pos := ReadU32(data, pos);
    if payloadLen.None? { return None; }
    if pos + sourceLen.value + roomLen.value + payloadLen.value > |data| {
      return None;
    }
    var source := data[pos..pos + sourceLen.value];
    pos := pos + sourceLen.value;
    var room := data[pos..pos + roomLen.value];
    pos := pos + roomLen.value;
    var payload := data[pos..pos + payloadLen.value];
    r := Some(Packet(data[5], room, source, sequence.value, ToSigned64(captureMs.value), payload));
  }
}
