/**
 * Base64 (section 4 of RFC 4648) as the signaling client writes and reads it.
 *
 * The decoder shifts into a signed 32-bit accumulator that it never masks.  The proofs show why that
 * is harmless: every byte is taken from the low twelve bits, which the wrap-around keeps.
 */
module Base64 {
  import opened Common
  import opened JsonText

  type int32 = x: int | -0x8000_0000 <= x < 0x8000_0000
  type Sextet = x: int | 0 <= x < 64

  // ----- The alphabet -----

  function CharOf(i: Sextet): char {
    if i < 26 then ('A' as int + i) as char
    else if i < 52 then ('a' as int + (i - 26)) as char
    else if i < 62 then ('0' as int + (i - 52)) as char
    else if i == 62 then '+' else '/'
  }

  function ValueOf(c: char): Option<Sextet> {
    if 'A' <= c <= 'Z' then Some(c as int - 'A' as int)
    else if 'a' <= c <= 'z' then Some(c as int - 'a' as int + 26)
    else if '0' <= c <= '9' then Some(c as int - '0' as int + 52)
    else if c == '+' then Some(62)
    else if c == '/' then Some(63)
    else None
  }

  lemma ValueOfChar(i: Sextet)
    ensures ValueOf(CharOf(i)) == Some(i) && !IsSpace(CharOf(i)) && CharOf(i) != '='
  {
  }

  // ----- Encoding -----

  function SextetOf(b0: byte, b1: byte, b2: byte, k: nat): Sextet
    requires k < 4
  {
    var triple := b0 * 0x1_0000 + b1 * 0x100 + b2;
    (if k == 0 then triple / 0x4_0000 else if k == 1 then triple / 0x1000 else if k == 2 then triple / 64 else triple) % 64
  }

  /** Four characters for up to three bytes; a missing byte counts as zero and its character is `=`. */
  function Quad(b0: byte, b1: Option<byte>, b2: Option<byte>): (quad: string)
    ensures |quad| == 4
  {
    var y := if b1.Some? then b1.value else 0;
    var z := if b2.Some? then b2.value else 0;
    [CharOf(SextetOf(b0, y, z, 0)), CharOf(SextetOf(b0, y, z, 1)),
     if b1.Some? then CharOf(SextetOf(b0, y, z, 2)) else '=',
     if b2.Some? then CharOf(SextetOf(b0, y, z, 3)) else '=']
  }

  function At(bytes: seq<byte>, i: nat): Option<byte> {
    if i < |bytes| then Some(bytes[i]) else None
  }

  function Drop3(bytes: seq<byte>): seq<byte> {
    if |bytes| < 3 then [] else bytes[3..]
  }

  function Encoded(bytes: seq<byte>): string
    decreases |bytes|
  {
    if bytes == [] then []
    else Quad(bytes[0], At(bytes, 1), At(bytes, 2)) + Encoded(Drop3(bytes))
  }

  // ----- Decoding -----

  /** The conversion back to a 32-bit int. */
  function Wrap32(x: int): int32 {
    (x + 0x8000_0000) % 0x1_0000_0000 - 0x8000_0000
  }

  /** value << 6 | sextet. */
  function ShiftIn(value: int32, sextet: Sextet): int32 {
    Wrap32(64 * value + sextet)
  }

  /** value >> bits & 0xff, with the arithmetic shift of a signed value. */
  function TakeByte(value: int32, bits: nat): byte {
    value / Power2(bits) % 256
  }

  /** The decoder's loop from any state on; `bits` starts at -8 and counts the unused bits less 8. */
  function Decoded(text: string, value: int32, bits: int): Option<seq<byte>>
    decreases |text|
  {
    if text == [] then Some([])
    else if IsSpace(text[0]) then Decoded(text[1..], value, bits)
    else if text[0] == '=' then Some([])
    else
      match ValueOf(text[0])
      case None => None
      case Some(sextet) =>
        var value' := ShiftIn(value, sextet);
        if bits + 6 >= 0 then Prepend<byte>(TakeByte(value', bits + 6), Decoded(text[1..], value', bits - 2))
        else Decoded(text[1..], value', bits + 6)
  }

  function Decode(text: string): Option<seq<byte>> {
    Decoded(text, 0, -8)
  }

  // ----- The accumulator -----

  lemma Mod4096(x: int, q: int, r: int)
    requires x == 4096 * q + r && 0 <= r < 4096
    ensures x % 4096 == r && x % 64 == r % 64
    ensures x / 16 % 256 == r / 16 && x / 4 % 256 == r % 1024 / 4 && x % 256 == r % 256
  {
    DivModUnique(x, 4096, q, r);
    DivModUnique(x, 64, 64 * q + r / 64, r % 64);
    DivModUnique(x, 256, 16 * q + r / 256, r % 256);
    DivModUnique(x, 16, 256 * q + r / 16, r % 16);
    DivModUnique(256 * q + r / 16, 256, q, r / 16);
    var s := r % 1024;
    DivModUnique(x, 4, 256 * (4 * q + r / 1024) + s / 4, s % 4);
    DivModUnique(256 * (4 * q + r / 1024) + s / 4, 256, 4 * q + r / 1024, s / 4);
  }

  lemma WrapKeepsLowBits(x: int)
    ensures Wrap32(x) % 4096 == x % 4096
  {
    var k := (x + 0x8000_0000) / 0x1_0000_0000;
    var y := Wrap32(x);
    assert y == x - 0x1_0000_0000 * k;
    hide Wrap32;
    var q, r := x / 4096, x % 4096;
    assert y == 4096 * (q - 0x10_0000 * k) + r;
    Mod4096(y, q - 0x10_0000 * k, r);
  }

  /** Whatever came before, the last two sextets are the low twelve bits. */
  lemma LowBitsAre(value: int32, low: Sextet, sextet: Sextet)
    requires value % 64 == low
    ensures ShiftIn(value, sextet) % 4096 == 64 * low + sextet
    ensures ShiftIn(value, sextet) % 64 == sextet
  {
    var x := 64 * value + sextet;
    var y := ShiftIn(value, sextet);
    WrapKeepsLowBits(x);
    assert y == Wrap32(x);
    hide Wrap32, ShiftIn;
    var r := 64 * low + sextet;
    assert value == 64 * (value / 64) + low;
    Mod4096(x, value / 64, r);
    assert y == 4096 * (y / 4096) + r;
    Mod4096(y, y / 4096, r);
    DivModUnique(r, 64, low, sextet);
  }

  lemma TakenBytes(value: int32)
    ensures TakeByte(value, 4) == value % 4096 / 16
    ensures TakeByte(value, 2) == value % 4096 % 1024 / 4
    ensures TakeByte(value, 0) == value % 4096 % 256
  {
    assert Power2(4) == 16 && Power2(2) == 4 && Power2(0) == 1;
    hide Power2;
    Mod4096(value, value / 4096, value % 4096);
  }

  // ----- Four characters -----

  lemma SextetsAre(b0: byte, b1: byte, b2: byte)
    ensures SextetOf(b0, b1, b2, 0) == b0 / 4
    ensures SextetOf(b0, b1, b2, 1) == b0 % 4 * 16 + b1 / 16
    ensures SextetOf(b0, b1, b2, 2) == b1 % 16 * 4 + b2 / 64
    ensures SextetOf(b0, b1, b2, 3) == b2 % 64
  {
    var t := b0 * 0x1_0000 + b1 * 0x100 + b2;
    DivModUnique(t, 0x4_0000, b0 / 4, b0 % 4 * 0x1_0000 + b1 * 0x100 + b2);
    DivModUnique(t, 0x1000, 16 * b0 + b1 / 16, b1 % 16 * 0x100 + b2);
    DivModUnique(16 * b0 + b1 / 16, 64, b0 / 4, b0 % 4 * 16 + b1 / 16);
    DivModUnique(t, 64, 1024 * b0 + 4 * b1 + b2 / 64, b2 % 64);
    DivModUnique(1024 * b0 + 4 * b1 + b2 / 64, 64, 16 * b0 + b1 / 16, b1 % 16 * 4 + b2 / 64);
  }

  lemma QuadIs(b0: byte, b1: Option<byte>, b2: Option<byte>)
    ensures var y := if b1.Some? then b1.value else 0;
            var z := if b2.Some? then b2.value else 0;
            Quad(b0, b1, b2) == [CharOf(b0 / 4), CharOf(b0 % 4 * 16 + y / 16),
                                 if b1.Some? then CharOf(y % 16 * 4 + z / 64) else '=', if b2.Some? then CharOf(z % 64) else '=']
  {
    hide SextetOf, CharOf;
    SextetsAre(b0, if b1.Some? then b1.value else 0, if b2.Some? then b2.value else 0);
  }

  /** Vectors of section 10 of RFC 4648, and the two characters they do not show. */
  lemma KnownTexts()
    ensures Encoded([0x66]) == "Zg==" && Encoded([0x66, 0x6f]) == "Zm8=" && Encoded([0x66, 0x6f, 0x6f]) == "Zm9v"
    ensures Encoded([0x66, 0x6f, 0x6f, 0x62, 0x61, 0x72]) == "Zm9vYmFy"
    ensures Encoded([0xfb, 0xef, 0xbe]) == "++++" && Encoded([0xff, 0xff, 0xff]) == "////"
  {
    hide Quad, SextetOf;
    OneQuad(0x66, None, None);
    OneQuad(0x66, Some(0x6f), None);
    OneQuad(0x66, Some(0x6f), Some(0x6f));
    OneQuad(0x62, Some(0x61), Some(0x72));
    OneQuad(0xfb, Some(0xef), Some(0xbe));
    OneQuad(0xff, Some(0xff), Some(0xff));
    var foobar: seq<byte> := [0x66, 0x6f, 0x6f, 0x62, 0x61, 0x72];
    assert Drop3(foobar) == [0x62, 0x61, 0x72];
    assert Encoded(foobar) == Quad(0x66, Some(0x6f), Some(0x6f)) + Encoded([0x62, 0x61, 0x72]);
  }

  /** The text of one to three bytes. */
  lemma OneQuad(b0: byte, b1: Option<byte>, b2: Option<byte>)
    requires b2.Some? ==> b1.Some?
    ensures var bytes := [b0] + (if b1.Some? then [b1.value] else []) + (if b2.Some? then [b2.value] else []);
            Encoded(bytes) == Quad(b0, b1, b2)
    ensures var y := if b1.Some? then b1.value else 0;
            var z := if b2.Some? then b2.value else 0;
            Quad(b0, b1, b2) == [CharOf(b0 / 4), CharOf(b0 % 4 * 16 + y / 16),
                                 if b1.Some? then CharOf(y % 16 * 4 + z / 64) else '=', if b2.Some? then CharOf(z % 64) else '=']
  {
    QuadIs(b0, b1, b2);
    hide Quad, CharOf;
    var bytes := [b0] + (if b1.Some? then [b1.value] else []) + (if b2.Some? then [b2.value] else []);
    assert Drop3(bytes) == [];
    assert Quad(b0, b1, b2) + [] == Quad(b0, b1, b2);
  }

  /** The bytes cut back out of neighbouring sextets. */
  lemma SextetsHoldBytes(b0: byte, b1: byte, b2: byte)
    ensures (64 * SextetOf(b0, b1, b2, 0) + SextetOf(b0, b1, b2, 1)) / 16 == b0
    ensures (64 * SextetOf(b0, b1, b2, 1) + SextetOf(b0, b1, b2, 2)) % 1024 / 4 == b1
    ensures (64 * SextetOf(b0, b1, b2, 2) + SextetOf(b0, b1, b2, 3)) % 256 == b2
  {
    SextetsAre(b0, b1, b2);
    hide SextetOf;
    var w1 := 64 * (b0 % 4 * 16 + b1 / 16) + (b1 % 16 * 4 + b2 / 64);
    DivModUnique(16 * b0 + b1 / 16, 16, b0, b1 / 16);
    DivModUnique(w1, 1024, b0 % 4, 4 * b1 + b2 / 64);
    DivModUnique(4 * b1 + b2 / 64, 4, b1, b2 / 64);
    DivModUnique(64 * (b1 % 16 * 4 + b2 / 64) + b2 % 64, 256, b1 % 16, b2);
  }

  lemma DecodedChar(sextet: Sextet, rest: string, value: int32, bits: int)
    ensures Decoded([CharOf(sextet)] + rest, value, bits)
         == if bits + 6 >= 0
            then Prepend<byte>(TakeByte(ShiftIn(value, sextet), bits + 6), Decoded(rest, ShiftIn(value, sextet), bits - 2))
            else Decoded(rest, ShiftIn(value, sextet), bits + 6)
  {
    ValueOfChar(sextet);
    hide CharOf, ShiftIn, TakeByte, ValueOf;
    assert ([CharOf(sextet)] + rest)[1..] == rest;
  }

  lemma DecodedPadding(rest: string, value: int32, bits: int)
    ensures Decoded(['='] + rest, value, bits) == Some([])
  {
  }

  /** Two characters from a clean start yield a byte and leave four bits. */
  lemma DecodedPair(i0: Sextet, i1: Sextet, rest: string, value: int32) returns (value': int32)
    ensures value' % 64 == i1
    ensures Decoded([CharOf(i0)] + ([CharOf(i1)] + rest), value, -8)
         == Prepend<byte>((64 * i0 + i1) / 16, Decoded(rest, value', -4))
  {
    hide CharOf, Decoded, TakeByte, ShiftIn;
    var v1 := ShiftIn(value, i0);
    value' := ShiftIn(v1, i1);
    LowBitsAre(value, value % 64, i0);
    LowBitsAre(v1, i0, i1);
    TakenBytes(value');
    DecodedChar(i0, [CharOf(i1)] + rest, value, -8);
    DecodedChar(i1, rest, v1, -2);
  }

  /** The next two characters each yield a byte, out of the bits left over and their own. */
  lemma DecodedThird(i1: Sextet, i2: Sextet, rest: string, value: int32) returns (value': int32)
    requires value % 64 == i1
    ensures value' % 64 == i2
    ensures Decoded([CharOf(i2)] + rest, value, -4) == Prepend<byte>((64 * i1 + i2) % 1024 / 4, Decoded(rest, value', -6))
  {
    value' := ShiftIn(value, i2);
    LowBitsAre(value, i1, i2);
    TakenBytes(value');
    hide CharOf, Decoded, TakeByte, ShiftIn;
    DecodedChar(i2, rest, value, -4);
  }

  lemma DecodedFourth(i2: Sextet, i3: Sextet, rest: string, value: int32) returns (value': int32)
    requires value % 64 == i2
    ensures Decoded([CharOf(i3)] + rest, value, -6) == Prepend<byte>((64 * i2 + i3) % 256, Decoded(rest, value', -8))
  {
    value' := ShiftIn(value, i3);
    LowBitsAre(value, i2, i3);
    TakenBytes(value');
    hide CharOf, Decoded, TakeByte, ShiftIn;
    DecodedChar(i3, rest, value, -6);
  }

  lemma QuadText(b0: byte, b1: byte, b2: byte, rest: string)
    ensures Quad(b0, Some(b1), Some(b2)) + rest
         == [CharOf(SextetOf(b0, b1, b2, 0))] + ([CharOf(SextetOf(b0, b1, b2, 1))]
            + ([CharOf(SextetOf(b0, b1, b2, 2))] + ([CharOf(SextetOf(b0, b1, b2, 3))] + rest)))
  {
    hide CharOf, SextetOf;
  }

  /** One full quad yields its three bytes and leaves no unused bits, whatever the accumulator held. */
  lemma DecodedQuad(b0: byte, b1: byte, b2: byte, rest: string, value: int32) returns (value': int32)
    ensures Decoded(Quad(b0, Some(b1), Some(b2)) + rest, value, -8)
         == Prepend<byte>(b0, Prepend<byte>(b1, Prepend<byte>(b2, Decoded(rest, value', -8))))
  {
    hide *;
    var i0, i1 := SextetOf(b0, b1, b2, 0), SextetOf(b0, b1, b2, 1);
    var i2, i3 := SextetOf(b0, b1, b2, 2), SextetOf(b0, b1, b2, 3);
    SextetsHoldBytes(b0, b1, b2);
    QuadText(b0, b1, b2, rest);
    var t3 := [CharOf(i3)] + rest;
    var t2 := [CharOf(i2)] + t3;
    var v2 := DecodedPair(i0, i1, t2, value);
    var v3 := DecodedThird(i1, i2, t3, v2);
    value' := DecodedFourth(i2, i3, rest, v3);
  }

  /** A padded quad yields the bytes there are and ends the text. */
  lemma DecodedOneByte(b0: byte, rest: string, value: int32)
    ensures Decoded(Quad(b0, None, None) + rest, value, -8) == Some([b0])
  {
    var i0, i1 := SextetOf(b0, 0, 0, 0), SextetOf(b0, 0, 0, 1);
    SextetsHoldBytes(b0, 0, 0);
    var tail := ['='] + (['='] + rest);
    assert Quad(b0, None, None) + rest == [CharOf(i0)] + ([CharOf(i1)] + tail);
    hide CharOf, SextetOf, Quad, Decoded;
    var v2 := DecodedPair(i0, i1, tail, value);
    DecodedPadding(['='] + rest, v2, -4);
    assert [b0] + [] == [b0];
  }

  lemma DecodedTwoBytes(b0: byte, b1: byte, rest: string, value: int32)
    ensures Decoded(Quad(b0, Some(b1), None) + rest, value, -8) == Some([b0, b1])
  {
    var i0, i1, i2 := SextetOf(b0, b1, 0, 0), SextetOf(b0, b1, 0, 1), SextetOf(b0, b1, 0, 2);
    SextetsHoldBytes(b0, b1, 0);
    var tail := ['='] + rest;
    assert Quad(b0, Some(b1), None) + rest == [CharOf(i0)] + ([CharOf(i1)] + ([CharOf(i2)] + tail));
    hide CharOf, SextetOf, Quad, Decoded;
    var v2 := DecodedPair(i0, i1, [CharOf(i2)] + tail, value);
    var v3 := DecodedThird(i1, i2, tail, v2);
    DecodedPadding(rest, v3, -6);
    assert [b0] + ([b1] + []) == [b0, b1];
  }

  /** The text still to come when the loop stands at byte `i`. */
  function Remaining(bytes: seq<byte>, i: nat): string {
    if i < |bytes| then Encoded(bytes[i..]) else []
  }

  lemma RemainingStep(bytes: seq<byte>, i: nat)
    requires i < |bytes|
    ensures Remaining(bytes, i)
         == Quad(bytes[i], At(bytes, i + 1), At(bytes, i + 2)) + Remaining(bytes, i + 3)
  {
    hide Quad;
    var rest := bytes[i..];
    assert At(rest, 1) == At(bytes, i + 1) && At(rest, 2) == At(bytes, i + 2);
    if i + 3 < |bytes| {
      assert rest[3..] == bytes[i + 3..];
    } else {
      assert Drop3(rest) == [] && Encoded([]) == [];
    }
  }

  lemma {:induction false} DecodedRemaining(bytes: seq<byte>, i: nat, value: int32)
    requires i <= |bytes|
    ensures Decoded(Remaining(bytes, i), value, -8) == Some(bytes[i..])
    decreases |bytes| - i
  {
    if i == |bytes| {
      assert bytes[i..] == [];
    } else {
      RemainingStep(bytes, i);
      TailOf(bytes, i);
      hide *;
      var tail := Remaining(bytes, i + 3);
      if i + 1 == |bytes| {
        DecodedOneByte(bytes[i], tail, value);
      } else if i + 2 == |bytes| {
        DecodedTwoBytes(bytes[i], bytes[i + 1], tail, value);
      } else {
        var value' := DecodedQuad(bytes[i], bytes[i + 1], bytes[i + 2], tail, value);
        DecodedRemaining(bytes, i + 3, value');
      }
    }
  }

  lemma TailOf(bytes: seq<byte>, i: nat)
    requires i < |bytes|
    ensures i + 1 == |bytes| ==> bytes[i..] == [bytes[i]] && At(bytes, i + 1) == None && At(bytes, i + 2) == None
    ensures i + 2 == |bytes| ==>
              bytes[i..] == [bytes[i], bytes[i + 1]] && At(bytes, i + 1) == Some(bytes[i + 1]) && At(bytes, i + 2) == None
    ensures i + 3 <= |bytes| ==>
              At(bytes, i + 1) == Some(bytes[i + 1]) && At(bytes, i + 2) == Some(bytes[i + 2])
              && Prepend<byte>(bytes[i], Prepend<byte>(bytes[i + 1], Prepend<byte>(bytes[i + 2], Some(bytes[i + 3..])))) == Some(bytes[i..])
  {
    if i + 3 <= |bytes| {
      assert bytes[i..] == [bytes[i]] + ([bytes[i + 1]] + ([bytes[i + 2]] + bytes[i + 3..]));
    }
  }

  lemma DecodedEncoded(bytes: seq<byte>, value: int32)
    ensures Decoded(Encoded(bytes), value, -8) == Some(bytes)
  {
    DecodedRemaining(bytes, 0, value);
    assert bytes[0..] == bytes;
    assert Encoded([]) == [];
  }

  // ----- Whitespace and rejection -----

  function Stripped(text: string): string {
    if text == [] then []
    else if IsSpace(text[0]) then Stripped(text[1..])
    else [text[0]] + Stripped(text[1..])
  }

  lemma {:induction false} WhitespaceIgnored(text: string, value: int32, bits: int)
    ensures Decoded(text, value, bits) == Decoded(Stripped(text), value, bits)
    decreases text
  {
    if text != [] {
      hide ShiftIn, TakeByte, ValueOf;
      var c := text[0];
      if IsSpace(c) {
        WhitespaceIgnored(text[1..], value, bits);
      } else {
        assert ([c] + Stripped(text[1..]))[1..] == Stripped(text[1..]);
        if c != '=' && ValueOf(c).Some? {
          var value' := ShiftIn(value, ValueOf(c).value);
          WhitespaceIgnored(text[1..], value', if bits + 6 >= 0 then bits - 2 else bits + 6);
        }
      }
    }
  }

  /** The text of any byte string decodes to it again, with whitespace spread through it anyhow. */
  lemma RoundTrip(bytes: seq<byte>, text: string)
    requires Stripped(text) == Encoded(bytes)
    ensures Decode(text) == Some(bytes)
  {
    WhitespaceIgnored(text, 0, -8);
    DecodedEncoded(bytes, 0);
  }

  predicate Foreign(c: char) {
    !IsSpace(c) && c != '=' && ValueOf(c) == None
  }

  lemma ForeignFirst(c: char, text: string)
    ensures (exists i :: 0 <= i < |text| + 1 && Foreign(([c] + text)[i]) && '=' !in ([c] + text)[..i])
       <==> Foreign(c) || (c != '=' && RefusedAt(text))
  {
    var all := [c] + text;
    if Foreign(c) {
      assert Foreign(all[0]) && '=' !in all[..0];
    } else if c != '=' && RefusedAt(text) {
      var i :| 0 <= i < |text| && Foreign(text[i]) && '=' !in text[..i];
      assert all[i + 1] == text[i] && all[..i + 1] == [c] + text[..i];
    }
    if i :| 0 <= i < |all| && Foreign(all[i]) && '=' !in all[..i] {
      if i > 0 {
        assert all[i] == text[i - 1] && all[..i] == [c] + text[..i - 1];
        assert c in all[..i];
        assert Foreign(text[i - 1]) && '=' !in text[..i - 1];
      }
    }
  }

  /** A foreign character in front of the first `=`. */
  ghost predicate RefusedAt(text: string) {
    exists i :: 0 <= i < |text| && Foreign(text[i]) && '=' !in text[..i]
  }

  /** Exactly when a text is refused. */
  lemma {:induction false} RefusedExactly(text: string, value: int32, bits: int)
    ensures Decoded(text, value, bits) == None <==> RefusedAt(text)
    decreases text
  {
    if text != [] {
      hide ShiftIn, TakeByte;
      var c := text[0];
      assert text == [c] + text[1..];
      ForeignFirst(c, text[1..]);
      if IsSpace(c) {
        RefusedExactly(text[1..], value, bits);
      } else if c != '=' && ValueOf(c).Some? {
        var value' := ShiftIn(value, ValueOf(c).value);
        RefusedExactly(text[1..], value', if bits + 6 >= 0 then bits - 2 else bits + 6);
      }
    }
  }

  // ----- The loops -----

  method Base64Encode(bytes: seq<byte>) returns (out: string)
    ensures out == Encoded(bytes)
  {
    hide *;
    out := [];
    var i := 0;
    RemainingEnds(bytes, out);
    while i < |bytes|
      invariant 0 <= i
      invariant out + Remaining(bytes, i) == Encoded(bytes)
    {
      RemainingStep(bytes, i);
      out := out + Quad(bytes[i], At(bytes, i + 1), At(bytes, i + 2));
      i := i + 3;
    }
    RemainingEnds(bytes, out);
  }

  lemma RemainingEnds(bytes: seq<byte>, out: string)
    ensures [] + Remaining(bytes, 0) == Encoded(bytes)
    ensures forall i: nat | i >= |bytes| :: out + Remaining(bytes, i) == out
  {
    assert bytes[0..] == bytes;
  }

  method Base64Decode(text: string) returns (r: Option<seq<byte>>)
    ensures r == Decode(text)
  {
    var out: seq<byte> := [];
    var value: int32 := 0;
    var bits := -8;
    ResumePrepend([], 0, Decode(text));
    assert text[0..] == text;
    ghost var total := Decode(text);
    for i := 0 to |text|
      invariant total == Resume(out, Decoded(text[i..], value, bits))
      invariant -8 <= bits < 0
    {
      hide ShiftIn, TakeByte, ValueOf, Resume;
      assert text[i..][1..] == text[i + 1..];
      var c := text[i];
      ResumeDone(out);
      if IsSpace(c) {
        continue;
      }
      if c == '=' {
        return Some(out);
      }
      var decoded := ValueOf(c);
      if decoded.None? {
        assert Decoded(text[i..], value, bits) == None;
        return None;
      }
      value := ShiftIn(value, decoded.value);
      bits := bits + 6;
      if bits >= 0 {
        ResumePrepend(out, TakeByte(value, bits), Decoded(text[i + 1..], value, bits - 8));
        out := out + [TakeByte(value, bits)];
        bits := bits - 8;
      }
    }
    ResumeDone(out);
    r := Some(out);
  }
}
