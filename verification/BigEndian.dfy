/** Integers as byte strings, most significant byte first, and their bitwise exclusive-or. */
module BigEndian {
  import opened Common

  function Power256(k: nat): (p: nat)
    ensures p > 0
  {
    if k == 0 then 1 else 256 * Power256(k - 1)
  }

  function ToBytes(x: nat, k: nat): (bytes: seq<byte>)
    ensures |bytes| == k
    decreases k
  {
    if k == 0 then [] else ToBytes(x / 256, k - 1) + [x % 256]
  }

  function FromBytes(bytes: seq<byte>): nat
    decreases |bytes|
  {
    if bytes == [] then 0 else 256 * FromBytes(bytes[..|bytes| - 1]) + bytes[|bytes| - 1]
  }

  lemma {:induction false} FromToBytes(x: nat, k: nat)
    requires x < Power256(k)
    ensures FromBytes(ToBytes(x, k)) == x
    decreases k
  {
    if k > 0 {
      var bytes := ToBytes(x, k);
      assert bytes[..k - 1] == ToBytes(x / 256, k - 1);
      assert x / 256 < Power256(k - 1);
      FromToBytes(x / 256, k - 1);
      assert bytes[k - 1] == x % 256;
      assert x == 256 * (x / 256) + x % 256;
    }
  }

  lemma {:induction false} FromBytesBound(bytes: seq<byte>)
    ensures FromBytes(bytes) < Power256(|bytes|)
    decreases |bytes|
  {
    if bytes != [] {
      FromBytesBound(bytes[..|bytes| - 1]);
    }
  }

  /** What comes first weighs most. */
  lemma {:induction false} FirstWeighsMost(a: seq<byte>, b: seq<byte>)
    ensures FromBytes(a + b) == FromBytes(a) * Power256(|b|) + FromBytes(b)
    decreases |b|
  {
    if b == [] {
      assert a + b == a;
    } else {
      var front := b[..|b| - 1];
      FirstWeighsMost(a, front);
      assert (a + b)[..|a + b| - 1] == a + front && (a + b)[|a + b| - 1] == b[|b| - 1];
      ShiftByte(FromBytes(a), Power256(|front|), FromBytes(front), b[|b| - 1]);
    }
  }

  lemma ShiftByte(a: nat, p: nat, front: nat, last: nat)
    ensures 256 * (a * p + front) + last == a * (256 * p) + (256 * front + last)
  {
  }

  lemma Powers()
    ensures Power256(2) == 0x1_0000 && Power256(4) == 0x1_0000_0000 && Power256(8) == 0x1_0000_0000_0000_0000
  {
    assert Power256(2) == 0x1_0000;
    assert Power256(4) == 256 * (256 * Power256(2));
    assert Power256(6) == 256 * (256 * Power256(4));
    assert Power256(8) == 256 * (256 * Power256(6));
  }

  lemma {:induction false} ToFromBytes(bytes: seq<byte>)
    ensures ToBytes(FromBytes(bytes), |bytes|) == bytes
    decreases |bytes|
  {
    if bytes != [] {
      var front, last := bytes[..|bytes| - 1], bytes[|bytes| - 1];
      ToFromBytes(front);
      DivModUnique(FromBytes(bytes), 256, FromBytes(front), last);
      assert bytes == front + [last];
    }
  }

  /** The exclusive-or of two `bits`-wide integers. */
  function Xor(a: nat, b: nat, bits: nat): nat {
    if bits == 0 then 0 else (a % 2 + b % 2) % 2 + 2 * Xor(a / 2, b / 2, bits - 1)
  }

  /** The lowest bit and the rest of an exclusive-or. */
  lemma XorParts(a: nat, b: nat, bits: nat)
    requires bits > 0
    ensures Xor(a, b, bits) % 2 == (a % 2 + b % 2) % 2 && Xor(a, b, bits) / 2 == Xor(a / 2, b / 2, bits - 1)
  {
    DivModUnique(Xor(a, b, bits), 2, Xor(a / 2, b / 2, bits - 1), (a % 2 + b % 2) % 2);
  }

  lemma LowBitTwice(a: nat, b: nat)
    ensures ((a % 2 + b % 2) % 2 + b % 2) % 2 == a % 2
  {
  }

  lemma {:induction false} XorTwice(a: nat, b: nat, bits: nat)
    requires a < Power2(bits)
    ensures Xor(Xor(a, b, bits), b, bits) == a
    decreases bits
  {
    if bits > 0 {
      XorTwice(a / 2, b / 2, bits - 1);
      XorParts(a, b, bits);
      LowBitTwice(a, b);
    }
  }

  lemma {:induction false} XorBound(a: nat, b: nat, bits: nat)
    ensures Xor(a, b, bits) < Power2(bits)
    decreases bits
  {
    if bits > 0 {
      XorBound(a / 2, b / 2, bits - 1);
    }
  }

  /** Each bit is set exactly when the bits differ there. */
  lemma {:induction false} XorBits(a: nat, b: nat, bits: nat, k: nat)
    requires k < bits
    ensures Xor(a, b, bits) / Power2(k) % 2 == 1 <==> a / Power2(k) % 2 != b / Power2(k) % 2
    decreases k
  {
    hide Xor;
    XorParts(a, b, bits);
    if k > 0 {
      XorBits(a / 2, b / 2, bits - 1, k - 1);
      HalfFirst(Xor(a, b, bits), Power2(k - 1));
      HalfFirst(a, Power2(k - 1));
      HalfFirst(b, Power2(k - 1));
    } else {
      assert Power2(0) == 1;
    }
  }

  lemma HalfFirst(x: nat, p: nat)
    requires p > 0
    ensures x / (2 * p) == x / 2 / p
  {
    var q, r := x / 2 / p, x / 2 % p;
    assert x / 2 == p * q + r;
    assert p * q == q * p && 2 * (p * q) == (2 * p) * q;
    DivModUnique(x, 2 * p, q, 2 * r + x % 2);
  }
}
