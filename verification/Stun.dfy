/**
 * The attribute walk over a STUN binding response (sections 15, 15.1 and 15.2 of RFC 5389).
 *
 * The reply lies in a zero-filled buffer of 512 bytes; the walk trusts the length field of the
 * header, cut down to the buffer, not the number of bytes received.
 */
module Stun {
  import opened Common
  import opened BigEndian

  const BUFFER_LENGTH := 512
  const HEADER_LENGTH := 20
  const MAPPED: uint16 := 0x0001
  const XOR_MAPPED: uint16 := 0x0020
  const IPV4: byte := 0x01
  const COOKIE: uint32 := 0x2112_A442
  const COOKIE_HIGH: uint16 := 0x2112

  /** Address and port in host order. */
  datatype Endpoint = Endpoint(address: uint32, port: uint16)

  type Buffer = s: seq<byte> | |s| == BUFFER_LENGTH witness seq(BUFFER_LENGTH, _ => 0)

  function Big16(high: byte, low: byte): uint16 {
    256 * (high as int) + low
  }

  function Xor16(a: uint16, b: uint16): uint16 {
    Widths();
    XorBound(a, b, 16);
    Xor(a, b, 16)
  }

  function Xor32(a: uint32, b: uint32): uint32 {
    Widths();
    XorBound(a, b, 32);
    Xor(a, b, 32)
  }

  lemma Widths()
    ensures Power2(16) == 0x1_0000 && Power2(32) == 0x1_0000_0000
  {
    assert Power2(4) == 16;
    assert Power2(8) == 16 * Power2(4);
    assert Power2(12) == 16 * Power2(8);
    assert Power2(16) == 16 * Power2(12);
    assert Power2(20) == 16 * Power2(16);
    assert Power2(24) == 16 * Power2(20);
    assert Power2(28) == 16 * Power2(24);
    assert Power2(32) == 16 * Power2(28);
  }

  // ----- One attribute -----

  datatype Attribute = Attribute(kind: uint16, value: seq<byte>, padding: seq<byte>)

  function Padded(length: nat): (p: nat)
    ensures length <= p < length + 4 && p % 4 == 0
  {
    (length + 3) / 4 * 4
  }

  /** Values end on a multiple of four, with whatever filling the sender chose. */
  predicate WellFormed(at: Attribute) {
    |at.value| <= 0xffff && |at.value| + |at.padding| == Padded(|at.value|)
  }

  function AttributeBytes(at: Attribute): (bytes: seq<byte>)
    requires WellFormed(at)
  {
    [HighByte(at.kind), LowByte(at.kind), HighByte(|at.value|), LowByte(|at.value|)] + at.value + at.padding
  }

  predicate IsMapping(kind: uint16, value: seq<byte>) {
    (kind == XOR_MAPPED || kind == MAPPED) && |value| >= 8 && value[1] == IPV4
  }

  /** The endpoint of a mapping whose port and address fields hold these numbers. */
  function Unmasked(kind: uint16, port: uint16, address: uint32, localPort: uint16): Endpoint {
    var mappedPort := if kind == XOR_MAPPED then Xor16(port, COOKIE_HIGH) else port;
    var mappedAddress := if kind == XOR_MAPPED then Xor32(address, COOKIE) else address;
    Endpoint(mappedAddress, if mappedPort == 0 then localPort else mappedPort)
  }

  function Big32(bytes: seq<byte>): uint32
    requires |bytes| == 4
  {
    Powers();
    FromBytesBound(bytes);
    FromBytes(bytes)
  }

  /** The endpoint an address attribute carries; port 0 stands for the port we are bound to. */
  function Carried(kind: uint16, value: seq<byte>, localPort: uint16): Endpoint
    requires IsMapping(kind, value)
  {
    Unmasked(kind, Big16(value[2], value[3]), Big32(value[4..8]), localPort)
  }

  /** How a server writes an IPv4 endpoint, plain or under the cookie. */
  function MappingValue(kind: uint16, reserved: byte, e: Endpoint, extra: seq<byte>): seq<byte> {
    var port := if kind == XOR_MAPPED then Xor16(e.port, COOKIE_HIGH) else e.port;
    var address := if kind == XOR_MAPPED then Xor32(e.address, COOKIE) else e.address;
    [reserved, IPV4, HighByte(port), LowByte(port)] + ToBytes(address, 4) + extra
  }

  /** Reading undoes writing, the exclusive-or included. */
  lemma CarriedIsWritten(kind: uint16, reserved: byte, e: Endpoint, extra: seq<byte>, localPort: uint16)
    requires kind == MAPPED || kind == XOR_MAPPED
    ensures IsMapping(kind, MappingValue(kind, reserved, e, extra))
    ensures Carried(kind, MappingValue(kind, reserved, e, extra), localPort)
         == e.(port := if e.port == 0 then localPort else e.port)
  {
    var port := if kind == XOR_MAPPED then Xor16(e.port, COOKIE_HIGH) else e.port;
    var address := if kind == XOR_MAPPED then Xor32(e.address, COOKIE) else e.address;
    var value := MappingValue(kind, reserved, e, extra);
    assert value[2] == HighByte(port) && value[3] == LowByte(port) && value[4..8] == ToBytes(address, 4);
    Widths();
    Powers();
    XorTwice(e.port, COOKIE_HIGH, 16);
    XorTwice(e.address, COOKIE, 32);
    FromToBytes(address, 4);
    assert Big16(HighByte(port), LowByte(port)) == port;
  }

  /** The attributes that map an IPv4 address are exactly those a server could have written as one: of type 1 or 0x20, and
      holding some endpoint. */
  lemma MappingsAreWritten(kind: uint16, value: seq<byte>)
    ensures IsMapping(kind, value) <==>
              (kind == 0x0001 || kind == 0x0020) && exists reserved, e, extra :: value == MappingValue(kind, reserved, e, extra)
  {
    if IsMapping(kind, value) {
      var e := WrittenBack(kind, value);
    } else if kind == 0x0001 || kind == 0x0020 {
      forall reserved, e, extra ensures value != MappingValue(kind, reserved, e, extra) {
        CarriedIsWritten(kind, reserved, e, extra, 0);
      }
    }
  }

  lemma WrittenBack(kind: uint16, value: seq<byte>) returns (e: Endpoint)
    requires IsMapping(kind, value)
    ensures value == MappingValue(kind, value[0], e, value[8..])
  {
    var port := Big16(value[2], value[3]);
    var address := Big32(value[4..8]);
    e := Endpoint(if kind == XOR_MAPPED then Xor32(address, COOKIE) else address,
                  if kind == XOR_MAPPED then Xor16(port, COOKIE_HIGH) else port);
    Widths();
    XorTwice(port, COOKIE_HIGH, 16);
    XorTwice(address, COOKIE, 32);
    ToFromBytes(value[4..8]);
    assert HighByte(port) == value[2] && LowByte(port) == value[3];
    assert value == [value[0], value[1], value[2], value[3]] + value[4..8] + value[8..];
  }

  // ----- The walk -----

  /** The first mapping from `pos` on; None when the attributes run out or overrun `end`. */
  function Walk(response: Buffer, pos: nat, end: nat, localPort: uint16): Option<Endpoint>
    requires end <= BUFFER_LENGTH
    decreases if pos <= end then end - pos else 0
  {
    if pos + 4 > end then None
    else
      var kind := Big16(response[pos], response[pos + 1]);
      var length := Big16(response[pos + 2], response[pos + 3]);
      if pos + 4 + length > end then None
      else
        var value := response[pos + 4..pos + 4 + length];
        if IsMapping(kind, value) then Some(Carried(kind, value, localPort))
        else Walk(response, pos + 4 + Padded(length), end, localPort)
  }

  /** The loop of queryStunMappedEndpoint; the postcondition covers every buffer, well-formed or not,
      and verification shows that no index leaves it. */
  method FindMapped(response: Buffer, localPort: uint16) returns (r: Option<Endpoint>)
    ensures r == Walk(response, HEADER_LENGTH, Min(BUFFER_LENGTH, HEADER_LENGTH + Big16(response[2], response[3])), localPort)
  {
    hide Walk, Carried, IsMapping, Padded, Big16;
    var length := Big16(response[2], response[3]);
    var pos := HEADER_LENGTH;
    var end := Min(BUFFER_LENGTH, HEADER_LENGTH + length);
    while pos + 4 <= end
      invariant pos >= HEADER_LENGTH
      invariant Walk(response, HEADER_LENGTH, end, localPort) == Walk(response, pos, end, localPort)
      decreases end - pos
    {
      var attrType := Big16(response[pos], response[pos + 1]);
      var attrLen := Big16(response[pos + 2], response[pos + 3]);
      if pos + 4 + attrLen > end {
        WalkOverruns(response, pos, end, localPort);
        break;
      }
      ghost var value := response[pos + 4..pos + 4 + attrLen];
      WalkStep(response, pos, end, attrType, value, localPort);
      pos := pos + 4;
      MappingAt(response, pos, attrType, attrLen);
      if (attrType == XOR_MAPPED || attrType == MAPPED) && attrLen >= 8 && response[pos + 1] == IPV4 {
        var e := ReadMapping(response, pos, attrLen, attrType, localPort);
        return Some(e);
      }
      pos := pos + Padded(attrLen);
    }
    WalkShort(response, pos, end, localPort);
    r := None;
  }

  lemma MappingAt(response: Buffer, pos: nat, attrType: uint16, attrLen: nat)
    requires pos + attrLen <= BUFFER_LENGTH
    ensures IsMapping(attrType, response[pos..pos + attrLen]) <==>
              (attrType == XOR_MAPPED || attrType == MAPPED) && attrLen >= 8 && response[pos + 1] == IPV4
  {
  }

  lemma WalkOverruns(response: Buffer, pos: nat, end: nat, localPort: uint16)
    requires pos + 4 <= end <= BUFFER_LENGTH && pos + 4 + Big16(response[pos + 2], response[pos + 3]) > end
    ensures Walk(response, pos, end, localPort) == None
  {
  }

  lemma WalkShort(response: Buffer, pos: nat, end: nat, localPort: uint16)
    requires end <= BUFFER_LENGTH
    ensures pos + 4 > end ==> Walk(response, pos, end, localPort) == None
  {
  }

  method ReadMapping(response: Buffer, pos: nat, attrLen: nat, attrType: uint16, localPort: uint16) returns (e: Endpoint)
    requires pos + attrLen <= BUFFER_LENGTH && IsMapping(attrType, response[pos..pos + attrLen])
    ensures e == Carried(attrType, response[pos..pos + attrLen], localPort)
  {
    var mappedPort := Big16(response[pos + 2], response[pos + 3]);
    var a4: int, a5: int, a6: int, a7: int := response[pos + 4], response[pos + 5], response[pos + 6], response[pos + 7];
    var mappedAddress: uint32 := 0x100_0000 * a4 + 0x1_0000 * a5 + 0x100 * a6 + a7;
    ghost var value := response[pos..pos + attrLen];
    assert value[2] == response[pos + 2] && value[3] == response[pos + 3];
    assert value[4] == response[pos + 4] && value[5] == response[pos + 5];
    assert value[6] == response[pos + 6] && value[7] == response[pos + 7];
    Big32Of(value[4..8]);
    assert mappedAddress == Big32(value[4..8]);
    hide Xor16, Xor32, Big32, Big16;
    if attrType == XOR_MAPPED {
      mappedPort := Xor16(mappedPort, COOKIE_HIGH);
      mappedAddress := Xor32(mappedAddress, COOKIE);
    }
    e := Endpoint(mappedAddress, if mappedPort == 0 then localPort else mappedPort);
  }

  lemma Big32Of(s: seq<byte>)
    requires |s| == 4
    ensures Big32(s) == 0x100_0000 * (s[0] as int) + 0x1_0000 * (s[1] as int) + 0x100 * (s[2] as int) + s[3]
  {
    assert s[..3][..2] == s[..2] && s[..2][..1] == s[..1] && s[..1][..0] == [];
    assert FromBytes(s[..1]) == s[0];
    assert FromBytes(s[..2]) == 256 * FromBytes(s[..1]) + s[1];
    assert FromBytes(s[..3]) == 256 * FromBytes(s[..2]) + s[2];
  }

  // ----- Well-formed responses -----

  function AttributesBytes(ats: seq<Attribute>): seq<byte>
    requires forall i | 0 <= i < |ats| :: WellFormed(ats[i])
    decreases ats
  {
    if ats == [] then [] else AttributeBytes(ats[0]) + AttributesBytes(ats[1..])
  }

  /** What the list says: its first IPv4 mapping. */
  function FirstMapping(ats: seq<Attribute>, localPort: uint16): Option<Endpoint> {
    if ats == [] then None
    else if IsMapping(ats[0].kind, ats[0].value) then Some(Carried(ats[0].kind, ats[0].value, localPort))
    else FirstMapping(ats[1..], localPort)
  }

  lemma SliceOfSlice(s: seq<byte>, pos: nat, n: nat, i: nat, j: nat)
    requires i <= j <= n && pos + n <= |s|
    ensures s[pos..pos + n][i..j] == s[pos + i..pos + j]
  {
    forall k | pos + i <= k < pos + j ensures s[pos..pos + n][i..j][k - pos - i] == s[k] {
      assert s[pos..pos + n][k - pos] == s[k];
    }
  }

  lemma AttributeAt(response: Buffer, pos: nat, at: Attribute)
    requires WellFormed(at)
    requires pos + |AttributeBytes(at)| <= BUFFER_LENGTH
    requires response[pos..pos + |AttributeBytes(at)|] == AttributeBytes(at)
    ensures Big16(response[pos], response[pos + 1]) == at.kind
    ensures Big16(response[pos + 2], response[pos + 3]) == |at.value|
    ensures response[pos + 4..pos + 4 + |at.value|] == at.value
    ensures |AttributeBytes(at)| == 4 + Padded(|at.value|)
  {
    var bytes := AttributeBytes(at);
    var slice := response[pos..pos + |bytes|];
    assert slice[0] == response[pos] && slice[1] == response[pos + 1];
    assert slice[2] == response[pos + 2] && slice[3] == response[pos + 3];
    assert bytes[4..4 + |at.value|] == at.value;
    SliceOfSlice(response, pos, |bytes|, 4, 4 + |at.value|);
  }

  lemma TwoParts(s: seq<byte>, pos: nat, a: seq<byte>, b: seq<byte>)
    requires pos + |a + b| <= |s| && s[pos..pos + |a + b|] == a + b
    ensures s[pos..pos + |a|] == a && s[pos + |a|..pos + |a| + |b|] == b
  {
    assert s[pos..pos + |a|] == s[pos..pos + |a + b|][..|a|];
    assert s[pos + |a|..pos + |a| + |b|] == s[pos..pos + |a + b|][|a|..];
  }

  /** One step of the walk at an attribute that lies at `pos` and fits. */
  lemma WalkStep(response: Buffer, pos: nat, end: nat, kind: uint16, value: seq<byte>, localPort: uint16)
    requires pos + 4 + |value| <= end <= BUFFER_LENGTH && |value| <= 0xffff
    requires Big16(response[pos], response[pos + 1]) == kind
    requires Big16(response[pos + 2], response[pos + 3]) == |value|
    requires response[pos + 4..pos + 4 + |value|] == value
    ensures Walk(response, pos, end, localPort)
         == if IsMapping(kind, value) then Some(Carried(kind, value, localPort))
            else Walk(response, pos + 4 + Padded(|value|), end, localPort)
  {
    hide Carried, IsMapping, Big16, Padded;
  }

  lemma WalkEnds(response: Buffer, pos: nat, localPort: uint16)
    requires pos <= BUFFER_LENGTH
    ensures Walk(response, pos, pos, localPort) == None
  {
  }

  /** The walk takes the first attribute of a list and stands at the next one. */
  lemma WalkFirst(response: Buffer, pos: nat, ats: seq<Attribute>, localPort: uint16) returns (next: nat)
    requires ats != [] && forall i | 0 <= i < |ats| :: WellFormed(ats[i])
    requires pos + |AttributesBytes(ats)| <= BUFFER_LENGTH
    requires response[pos..pos + |AttributesBytes(ats)|] == AttributesBytes(ats)
    ensures next + |AttributesBytes(ats[1..])| == pos + |AttributesBytes(ats)|
    ensures response[next..next + |AttributesBytes(ats[1..])|] == AttributesBytes(ats[1..])
    ensures Walk(response, pos, pos + |AttributesBytes(ats)|, localPort)
         == if IsMapping(ats[0].kind, ats[0].value) then Some(Carried(ats[0].kind, ats[0].value, localPort))
            else Walk(response, next, pos + |AttributesBytes(ats)|, localPort)
  {
    hide Walk, Carried, IsMapping, Big16, Padded;
    var first := AttributeBytes(ats[0]);
    next := pos + |first|;
    assert AttributesBytes(ats) == first + AttributesBytes(ats[1..]);
    TwoParts(response, pos, first, AttributesBytes(ats[1..]));
    AttributeAt(response, pos, ats[0]);
    hide *;
    WalkStep(response, pos, pos + |AttributesBytes(ats)|, ats[0].kind, ats[0].value, localPort);
  }

  lemma {:induction false} WalkReadsList(response: Buffer, pos: nat, ats: seq<Attribute>, localPort: uint16)
    requires forall i | 0 <= i < |ats| :: WellFormed(ats[i])
    requires pos + |AttributesBytes(ats)| <= BUFFER_LENGTH
    requires response[pos..pos + |AttributesBytes(ats)|] == AttributesBytes(ats)
    ensures Walk(response, pos, pos + |AttributesBytes(ats)|, localPort) == FirstMapping(ats, localPort)
    decreases ats
  {
    hide Walk, Carried, IsMapping, Big16;
    if ats == [] {
      WalkEnds(response, pos, localPort);
    } else {
      var next := WalkFirst(response, pos, ats, localPort);
      WalkReadsList(response, next, ats[1..], localPort);
    }
  }

  /** A response of any attributes that fit, padded to four: the walk answers with the first mapping. */
  lemma ResponseAnswered(response: Buffer, ats: seq<Attribute>, localPort: uint16)
    requires forall i | 0 <= i < |ats| :: WellFormed(ats[i])
    requires |AttributesBytes(ats)| <= 492
    requires Big16(response[2], response[3]) == |AttributesBytes(ats)|
    requires response[HEADER_LENGTH..HEADER_LENGTH + |AttributesBytes(ats)|] == AttributesBytes(ats)
    ensures Walk(response, HEADER_LENGTH, Min(BUFFER_LENGTH, HEADER_LENGTH + Big16(response[2], response[3])), localPort)
         == FirstMapping(ats, localPort)
  {
    WalkReadsList(response, HEADER_LENGTH, ats, localPort);
  }

  lemma {:induction false} FirstMappingAt(ats: seq<Attribute>, k: nat, localPort: uint16)
    requires k < |ats| && IsMapping(ats[k].kind, ats[k].value)
    requires forall i | 0 <= i < k :: !IsMapping(ats[i].kind, ats[i].value)
    ensures FirstMapping(ats, localPort) == Some(Carried(ats[k].kind, ats[k].value, localPort))
    decreases k
  {
    hide IsMapping, Carried;
    if k > 0 {
      FirstMappingAt(ats[1..], k - 1, localPort);
    }
  }

  /** The endpoint a server wrote into the first IPv4 mapping of its answer is the endpoint found, with the
      exclusive-or undone and port 0 replaced by the local port. */
  lemma EndpointRecovered(response: Buffer, ats: seq<Attribute>, k: nat, reserved: byte, e: Endpoint, extra: seq<byte>,
                          localPort: uint16)
    requires forall i | 0 <= i < |ats| :: WellFormed(ats[i])
    requires |AttributesBytes(ats)| <= 492
    requires Big16(response[2], response[3]) == |AttributesBytes(ats)|
    requires response[HEADER_LENGTH..HEADER_LENGTH + |AttributesBytes(ats)|] == AttributesBytes(ats)
    requires k < |ats| && forall i | 0 <= i < k :: !IsMapping(ats[i].kind, ats[i].value)
    requires ats[k].kind == MAPPED || ats[k].kind == XOR_MAPPED
    requires ats[k].value == MappingValue(ats[k].kind, reserved, e, extra)
    ensures Walk(response, HEADER_LENGTH, Min(BUFFER_LENGTH, HEADER_LENGTH + Big16(response[2], response[3])), localPort)
         == Some(e.(port := if e.port == 0 then localPort else e.port))
  {
    hide Walk, AttributesBytes, MappingValue, IsMapping, Carried, Big16;
    ResponseAnswered(response, ats, localPort);
    CarriedIsWritten(ats[k].kind, reserved, e, extra, localPort);
    FirstMappingAt(ats, k, localPort);
  }
}
