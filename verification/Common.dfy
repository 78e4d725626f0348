/** Shared vocabulary: optional values, bytes, machine integers and the byte order of ids. */
module Common {

  datatype Option<+T> = None | Some(value: T)

  function OrElse<T>(r: Option<T>, default: T): T {
    match r
    case None => default
    case Some(value) => value
  }

  /** One more element in front of a result, if there is one. */
  function Prepend<T>(x: T, r: Option<seq<T>>): Option<seq<T>> {
    match r
    case None => None
    case Some(s) => Some([x] + s)
  }

  /** The result of a loop that has `out` already. */
  function Resume<T>(out: seq<T>, rest: Option<seq<T>>): Option<seq<T>> {
    match rest
    case None => None
    case Some(s) => Some(out + s)
  }

  lemma ResumePrepend<T>(out: seq<T>, x: T, rest: Option<seq<T>>)
    ensures Resume([], rest) == rest
    ensures Resume(out, Prepend(x, rest)) == Resume(out + [x], rest)
  {
    if rest.Some? {
      assert [] + rest.value == rest.value;
      assert out + ([x] + rest.value) == out + [x] + rest.value;
    }
  }

  lemma ResumeDone<T>(out: seq<T>)
    ensures Resume(out, Some([])) == Some(out) && Resume(out, None) == None
  {
    assert out + [] == out;
  }

  type byte = b: int | 0 <= b < 0x100
  type uint16 = x: int | 0 <= x < 0x1_0000
  type uint32 = x: int | 0 <= x < 0x1_0000_0000
  type int16 = x: int | -0x8000 <= x < 0x8000

  function Min(a: int, b: int): int {
    if a <= b then a else b
  }

  function Max(a: int, b: int): int {
    if a <= b then b else a
  }

  function Clamp(x: int, lo: int, hi: int): int
    requires lo <= hi
  {
    Max(lo, Min(x, hi))
  }

  function Abs(x: int): nat {
    if x < 0 then -x else x
  }

  function Distance(a: int, b: int): nat {
    Abs(a - b)
  }

  /** Two's complement reading of a 16-bit pattern. */
  function ToSigned16(x: uint16): int16 {
    if x < 0x8000 then x else x - 0x1_0000
  }

  function ToUnsigned16(x: int16): uint16 {
    if x < 0 then x + 0x1_0000 else x
  }

  function LowByte(x: uint16): byte { x % 256 }

  function HighByte(x: uint16): byte { x / 256 }

  function FromLe16(low: byte, high: byte): uint16 { low + 256 * high }

  /** The byte order of std::string::operator< and Go's sort.Strings. */
  predicate LexLess(a: string, b: string) {
    b != [] && (a == [] || a[0] < b[0] || (a[0] == b[0] && LexLess(a[1..], b[1..])))
  }

  lemma {:induction false} LexLessAsymmetric(a: string, b: string)
    ensures !(LexLess(a, b) && LexLess(b, a))
  {
    if a != [] && b != [] && a[0] == b[0] {
      LexLessAsymmetric(a[1..], b[1..]);
    }
  }

  lemma {:induction false} LexLessTotal(a: string, b: string)
    ensures a == b || LexLess(a, b) || LexLess(b, a)
  {
    if a != [] && b != [] && a[0] == b[0] {
      LexLessTotal(a[1..], b[1..]);
      assert a == [a[0]] + a[1..] && b == [b[0]] + b[1..];
    }
  }

  lemma {:induction false} LexLessTransitive(a: string, b: string, c: string)
    requires LexLess(a, b) && LexLess(b, c)
    ensures LexLess(a, c)
  {
    if a != [] && a[0] == b[0] == c[0] {
      LexLessTransitive(a[1..], b[1..], c[1..]);
    }
  }

  // ----- Powers and division -----

  function Power2(k: nat): (p: nat)
    ensures p > 0
  {
    if k == 0 then 1 else 2 * Power2(k - 1)
  }

  lemma {:induction false} MulSucc(d: int, a: int, b: int)
    requires d > 0 && a < b
    ensures d * a + d <= d * b
    decreases b - a
  {
    if b == a + 1 {
      assert d * (a + 1) == d * a + d;
    } else {
      MulSucc(d, a, b - 1);
      assert d * (b - 1) == d * b - d;
    }
  }

  lemma DivModUnique(x: int, d: int, q: int, r: int)
    requires x == d * q + r && 0 <= r < d
    ensures x / d == q && x % d == r
  {
    var q' := x / d;
    assert x == d * q' + x % d;
    if q < q' {
      MulSucc(d, q, q');
    } else if q' < q {
      MulSucc(d, q', q);
    }
  }
}
