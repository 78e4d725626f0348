/**
 * The hand-written JSON text helpers that the signaling client and the direct transport share:
 * escaping, first-occurrence key search, and reading a string or a number behind a key.
 *
 * Specifications work on suffixes ("the text behind the key"); the methods work on positions, as
 * the source does, and are proved to agree.
 */
module JsonText {
  import opened Common

  const QUOTE: char := '"'
  const BACKSLASH: char := '\\'

  // ----- Printing a string -----

  function EscapeChar(c: char): (e: string)
    ensures 1 <= |e| <= 2 && e[0] != QUOTE
    ensures |e| == 2 && e[1] == QUOTE <==> c == QUOTE
    ensures c > ' ' && c != QUOTE && c != BACKSLASH ==> e == [c]
    ensures e == [c] || e[0] == BACKSLASH || e[0] == ' '
    ensures e[0] == BACKSLASH <==> |e| == 2
  {
    if c == BACKSLASH then [BACKSLASH, BACKSLASH]
    else if c == QUOTE then [BACKSLASH, QUOTE]
    else if c == '\n' then [BACKSLASH, 'n']
    else if c == '\r' then [BACKSLASH, 'r']
    else if c == '\t' then [BACKSLASH, 't']
    else if c < ' ' then [' ']
    else [c]
  }

  function Escape(s: string): string {
    if s == [] then [] else EscapeChar(s[0]) + Escape(s[1..])
  }

  function Quote(s: string): string {
    [QUOTE] + Escape(s) + [QUOTE]
  }

  /** What escaping loses: control characters other than newline, return and tab become spaces. */
  function CleanChar(c: char): char {
    if c < ' ' && c != '\n' && c != '\r' && c != '\t' then ' ' else c
  }

  function Clean(s: string): (r: string)
    ensures |r| == |s|
  {
    if s == [] then [] else [CleanChar(s[0])] + Clean(s[1..])
  }

  // ----- Reading a string back -----

  function Unescape(c: char): char {
    if c == 'n' then '\n' else if c == 'r' then '\r' else if c == 't' then '\t' else c
  }

  /** The contents of a string whose opening quote has been read; None when it never closes. */
  function ReadString(text: string): Option<string>
    decreases |text|
  {
    if text == [] then None
    else if text[0] == QUOTE then Some([])
    else if text[0] == BACKSLASH && |text| > 1 then Prepend(Unescape(text[1]), ReadString(text[2..]))
    else Prepend(text[0], ReadString(text[1..]))
  }

  /** Reading undoes printing, up to Clean, and stops at the closing quote whatever follows. */
  lemma {:induction false} ReadUndoesEscape(s: string, rest: string)
    ensures ReadString(Escape(s) + [QUOTE] + rest) == Some(Clean(s))
    decreases s
  {
    var text := Escape(s) + [QUOTE] + rest;
    if s == [] {
      assert text == [QUOTE] + rest;
    } else {
      var tail := Escape(s[1..]) + [QUOTE] + rest;
      var e := EscapeChar(s[0]);
      assert text == e + tail;
      assert text[0] == e[0];
      assert text[|e|..] == tail;
      if |e| == 2 {
        assert text[1] == e[1];
      }
      ReadUndoesEscape(s[1..], rest);
    }
  }

  // ----- Key search -----

  predicate StartsWith(text: string, needle: string) {
    |needle| <= |text| && text[..|needle|] == needle
  }

  /** The text behind the first occurrence of `needle`. */
  function After(text: string, needle: string): Option<string>
    requires needle != []
    decreases |text|
  {
    if StartsWith(text, needle) then Some(text[|needle|..])
    else if text == [] then None
    else After(text[1..], needle)
  }

  /** std::isspace in the C locale. */
  predicate IsSpace(c: char) {
    c == ' ' || c == '\t' || c == '\n' || c == 11 as char || c == 12 as char || c == '\r'
  }

  function SkipSpace(text: string): (r: string)
    ensures r == [] || !IsSpace(r[0])
    decreases |text|
  {
    if text != [] && IsSpace(text[0]) then SkipSpace(text[1..]) else text
  }

  function Needle(key: string): string {
    [QUOTE] + key + [QUOTE]
  }

  /** findJsonValue: the text behind the colon behind the first occurrence of the quoted key. */
  function Value(json: string, key: string): Option<string> {
    match After(json, Needle(key))
    case None => None
    case Some(behindKey) =>
      match After(behindKey, ":")
      case None => None
      case Some(behindColon) => Some(SkipSpace(behindColon))
  }

  /** Whatever the C library calls space is passed between colon and value, and nothing else. */
  lemma {:induction false} SpaceSkipped(space: string, value: string)
    requires forall i | 0 <= i < |space| :: space[i] == ' ' || 9 <= space[i] as int <= 13
    requires value == [] || !(value[0] == ' ' || 9 <= value[0] as int <= 13)
    ensures SkipSpace(space + value) == value
    decreases space
  {
    if space == [] {
      assert space + value == value;
    } else {
      assert (space + value)[1..] == space[1..] + value && (space + value)[0] == space[0];
      SpaceSkipped(space[1..], value);
    }
  }

  /** In text without quotes no key is found. */
  lemma {:induction false} NothingQuoted(text: string, key: string)
    requires QUOTE !in text
    ensures After(text, Needle(key)) == None && Value(text, key) == None
    decreases text
  {
    assert Needle(key)[0] == QUOTE;
    assert |text| >= |Needle(key)| ==> text[..|Needle(key)|][0] != QUOTE;
    if text != [] {
      NothingQuoted(text[1..], key);
    }
  }

  function StringValue(json: string, key: string): Option<string> {
    match Value(json, key)
    case None => None
    case Some(v) => if v == [] || v[0] != QUOTE then None else ReadString(v[1..])
  }

  // ----- Numbers -----

  predicate IsDigit(c: char) { '0' <= c <= '9' }

  function Digit(c: char): (d: nat)
    requires IsDigit(c)
    ensures d < 10
  {
    c as int - '0' as int
  }

  function DigitChar(d: nat): (c: char)
    requires d < 10
    ensures IsDigit(c) && Digit(c) == d
  {
    (d + '0' as int) as char
  }

  /** Unsigned decimal, as operator<< prints it. */
  function Decimal(n: nat): (text: string)
    ensures text != [] && forall c <- text :: IsDigit(c)
  {
    if n < 10 then [DigitChar(n)] else Decimal(n / 10) + [DigitChar(n % 10)]
  }

  /** The value of the leading digits, most significant first, on top of what was read before. */
  function ReadDigits(text: string, sofar: nat): nat
    decreases |text|
  {
    if text == [] || !IsDigit(text[0]) then sofar
    else ReadDigits(text[1..], 10 * sofar + Digit(text[0]))
  }

  /** std::strtod on the unsigned decimal integers this program prints. */
  function ReadNumber(text: string): Option<nat> {
    if text == [] || !IsDigit(text[0]) then None else Some(ReadDigits(text, 0))
  }

  function NumberValue(json: string, key: string): Option<nat> {
    match Value(json, key)
    case None => None
    case Some(v) => ReadNumber(v)
  }

  function Pow10(k: nat): nat {
    if k == 0 then 1 else 10 * Pow10(k - 1)
  }

  /** The number whose digits are those of `sofar` and then those of `n`. */
  function Joined(sofar: nat, n: nat): nat {
    sofar * Pow10(|Decimal(n)|) + n
  }

  lemma ShiftDigit(sofar: nat, p: nat, high: nat, low: nat)
    ensures 10 * (sofar * p + high) + low == sofar * (10 * p) + (10 * high + low)
  {
  }

  lemma JoinedDigits(sofar: nat, n: nat)
    ensures n < 10 ==> Joined(sofar, n) == 10 * sofar + n && Decimal(n) == [DigitChar(n)]
    ensures n >= 10 ==> Joined(sofar, n) == 10 * Joined(sofar, n / 10) + n % 10
                        && Decimal(n) == Decimal(n / 10) + [DigitChar(n % 10)]
  {
    if n < 10 {
      assert Pow10(1) == 10;
    } else {
      assert Pow10(|Decimal(n)|) == 10 * Pow10(|Decimal(n / 10)|);
      ShiftDigit(sofar, Pow10(|Decimal(n / 10)|), n / 10, n % 10);
    }
  }

  lemma {:induction false} ReadDigitsOfDecimal(n: nat, rest: string, sofar: nat)
    ensures ReadDigits(Decimal(n) + rest, sofar) == ReadDigits(rest, Joined(sofar, n))
    decreases n
  {
    hide *;
    JoinedDigits(sofar, n);
    if n < 10 {
      ReadOneDigit(n, rest, sofar);
    } else {
      var last := [DigitChar(n % 10)];
      assert Decimal(n) + rest == Decimal(n / 10) + (last + rest);
      ReadDigitsOfDecimal(n / 10, last + rest, sofar);
      ReadOneDigit(n % 10, rest, Joined(sofar, n / 10));
    }
  }

  lemma ReadOneDigit(d: nat, rest: string, sofar: nat)
    requires d < 10
    ensures ReadDigits([DigitChar(d)] + rest, sofar) == ReadDigits(rest, 10 * sofar + d)
  {
    assert ([DigitChar(d)] + rest)[1..] == rest;
  }

  lemma ReadNumberOfDecimal(n: nat, rest: string)
    requires rest == [] || !IsDigit(rest[0])
    ensures ReadNumber(Decimal(n) + rest) == Some(n)
  {
    hide Decimal;
    ReadDigitsOfDecimal(n, rest, 0);
    assert (Decimal(n) + rest)[0] == Decimal(n)[0];
  }

  // ----- Where a quoted key can be found -----

  predicate PlainChars(s: string) {
    forall i | 0 <= i < |s| :: s[i] > ' ' && s[i] != QUOTE && s[i] != BACKSLASH
  }

  /** A key as this program writes them: no quotes, backslashes, spaces or control characters. */
  predicate PlainKey(key: string) {
    key != [] && PlainChars(key)
  }

  /** `s` ends with a quote followed by `key`. */
  predicate EndsQuoted(s: string, key: string) {
    s != [] && ((s[0] == QUOTE && s[1..] == key) || EndsQuoted(s[1..], key))
  }

  /** The printed form of `s` contains the quoted key: `s` is the key, or its tail pretends to be. */
  predicate Hits(s: string, key: string) {
    s == key || EndsQuoted(s, key)
  }

  lemma StartsWithCons(c: char, text: string, d: char, needle: string)
    ensures StartsWith([c] + text, [d] + needle) <==> c == d && StartsWith(text, needle)
  {
    var n := |needle|;
    if n <= |text| {
      assert ([c] + text)[..n + 1] == [c] + text[..n];
      assert ([c] + text[..n])[1..] == text[..n] && ([d] + needle)[1..] == needle;
    }
  }

  /** The inside of a printed string: every quote and every backslash in it is escaped. */
  predicate WellEscaped(body: string)
    decreases |body|
  {
    body == [] ||
    (if body[0] == BACKSLASH then |body| > 1 && WellEscaped(body[2..]) else body[0] != QUOTE && WellEscaped(body[1..]))
  }

  lemma RawKeyAtEnd(body: string, rest: string, key: string)
    requires WellEscaped(body) && PlainChars(key) && (body == [] || key == [])
    ensures StartsWith(body + [QUOTE] + rest, key + [QUOTE]) <==> body == key
  {
    var text := body + [QUOTE] + rest;
    assert text[0] == if body == [] then QUOTE else body[0];
    assert (key + [QUOTE])[0] == if key == [] then QUOTE else key[0];
    assert body == [] == key ==> text[..1] == [QUOTE];
  }

  /** A key and its closing quote begin a printed string exactly when the string is the key. */
  lemma {:induction false} RawKey(body: string, rest: string, key: string)
    requires WellEscaped(body) && PlainChars(key)
    ensures StartsWith(body + [QUOTE] + rest, key + [QUOTE]) <==> body == key
    decreases body
  {
    hide StartsWith;
    if body == [] || key == [] {
      RawKeyAtEnd(body, rest, key);
    } else {
      var tail := body[1..] + [QUOTE] + rest;
      assert body + [QUOTE] + rest == [body[0]] + tail;
      assert key + [QUOTE] == [key[0]] + (key[1..] + [QUOTE]);
      StartsWithCons(body[0], tail, key[0], key[1..] + [QUOTE]);
      if body[0] == key[0] {
        RawKey(body[1..], rest, key[1..]);
      }
      assert body == [body[0]] + body[1..] && key == [key[0]] + key[1..];
    }
  }

  lemma AfterStep(text: string, needle: string)
    requires needle != [] && text != [] && !StartsWith(text, needle)
    ensures After(text, needle) == After(text[1..], needle)
  {
  }

  lemma AfterOther(c: char, text: string, needle: string)
    requires needle != [] && c != needle[0]
    ensures After([c] + text, needle) == After(text, needle)
  {
    assert ([c] + text)[1..] == text;
  }

  lemma {:induction false} AfterSkip(prefix: string, text: string, needle: string)
    requires needle != [] && needle[0] !in prefix
    ensures After(prefix + text, needle) == After(text, needle)
    decreases prefix
  {
    if prefix == [] {
      assert prefix + text == text;
    } else {
      assert prefix + text == [prefix[0]] + (prefix[1..] + text);
      AfterOther(prefix[0], prefix[1..] + text, needle);
      AfterSkip(prefix[1..], text, needle);
    }
  }

  lemma AfterHere(needle: string, text: string)
    requires needle != []
    ensures After(needle + text, needle) == Some(text)
  {
    assert (needle + text)[..|needle|] == needle;
    assert (needle + text)[|needle|..] == text;
  }

  /** A quote starts the quoted key exactly when the key and its closing quote follow. */
  lemma QuoteStarts(text: string, key: string)
    ensures StartsWith([QUOTE] + text, Needle(key)) <==> StartsWith(text, key + [QUOTE])
    ensures StartsWith(text, key + [QUOTE]) ==> ([QUOTE] + text)[|Needle(key)|..] == text[|key| + 1..]
  {
    assert Needle(key) == [QUOTE] + (key + [QUOTE]);
    StartsWithCons(QUOTE, text, QUOTE, key + [QUOTE]);
  }

  /** Searching from a quote that is followed by the inside of a printed string. */
  lemma AfterQuote(body: string, rest: string, key: string)
    requires WellEscaped(body) && PlainKey(key)
    ensures var tail := body + [QUOTE] + rest;
            After([QUOTE] + tail, Needle(key)) == if body == key then Some(rest) else After(tail, Needle(key))
  {
    var tail := body + [QUOTE] + rest;
    QuoteStarts(tail, key);
    RawKey(body, rest, key);
    if body == key {
      assert tail[|key| + 1..] == rest;
    } else {
      AfterStep([QUOTE] + tail, Needle(key));
      assert ([QUOTE] + tail)[1..] == tail;
    }
  }

  /** Searching through the inside of a printed string: only a pretending tail stops the search. */
  lemma {:induction false} AfterInside(body: string, rest: string, key: string)
    requires WellEscaped(body) && PlainKey(key)
    ensures After(body + [QUOTE] + rest, Needle(key))
         == if EndsQuoted(body, key) then Some(rest) else After([QUOTE] + rest, Needle(key))
    decreases |body|
  {
    hide After;
    if body == [] {
      assert body + [QUOTE] + rest == [QUOTE] + rest;
    } else {
      var tail := body[1..] + [QUOTE] + rest;
      assert body + [QUOTE] + rest == [body[0]] + tail;
      AfterOther(body[0], tail, Needle(key));
      if body[0] != BACKSLASH {
        AfterInside(body[1..], rest, key);
      } else {
        var behind := body[2..] + [QUOTE] + rest;
        assert tail == [body[1]] + behind;
        AfterInside(body[2..], rest, key);
        assert body[1..][0] == body[1] && body[1..][1..] == body[2..];
        if body[1] == QUOTE {
          AfterQuote(body[2..], rest, key);
        } else {
          AfterOther(body[1], behind, Needle(key));
        }
      }
    }
  }

  /** Searching from the opening quote of a printed string on: the search stops right behind the
      string when the string hits the key, and goes on behind it otherwise. */
  lemma AfterRaw(body: string, rest: string, key: string)
    requires WellEscaped(body) && PlainKey(key) && rest != [] && rest[0] != key[0]
    ensures After([QUOTE] + body + [QUOTE] + rest, Needle(key))
         == if Hits(body, key) then Some(rest) else After(rest, Needle(key))
  {
    hide After, WellEscaped;
    assert [QUOTE] + body + [QUOTE] + rest == [QUOTE] + (body + [QUOTE] + rest);
    AfterQuote(body, rest, key);
    AfterInside(body, rest, key);
    StartsWithCons(rest[0], rest[1..], key[0], key[1..] + [QUOTE]);
    assert rest == [rest[0]] + rest[1..] && key + [QUOTE] == [key[0]] + (key[1..] + [QUOTE]);
    QuoteStarts(rest, key);
    AfterStep([QUOTE] + rest, Needle(key));
    assert ([QUOTE] + rest)[1..] == rest;
  }

  /** What an escaped character may look like, to those who look for keys. */
  predicate Piece(c: char, e: string) {
    if c == QUOTE then e == [BACKSLASH, QUOTE]
    else
      && e != [] && WellEscaped(e) && QUOTE !in e
      && ((c != BACKSLASH && e == [c]) || e[0] == BACKSLASH || e[0] == ' ')
  }

  /** One more escaped character in front hides no quoted key and makes none. */
  lemma PieceInFront(c: char, e: string, tail: string, key: string)
    requires Piece(c, e) && PlainChars(key) && (key != [] && c == key[0] ==> e == [c])
    ensures WellEscaped(tail) ==> WellEscaped(e + tail)
    ensures EndsQuoted(e + tail, key) <==> (c == QUOTE && tail == key) || EndsQuoted(tail, key)
    ensures e + tail == key <==> key != [] && c == key[0] && tail == key[1..]
  {
    if c == QUOTE {
      assert (e + tail)[1..] == [QUOTE] + tail && (e + tail)[2..] == tail && ([QUOTE] + tail)[1..] == tail;
    } else {
      EscapedInFront(e, tail, key);
      assert (e + tail)[0] == e[0];
      if key != [] {
        assert key == [key[0]] + key[1..];
      }
      if e == [c] {
        assert (e + tail)[1..] == tail;
      }
    }
  }

  lemma {:induction false} EscapedInFront(e: string, tail: string, key: string)
    requires WellEscaped(e)
    ensures WellEscaped(tail) ==> WellEscaped(e + tail)
    ensures QUOTE !in e ==> (EndsQuoted(e + tail, key) <==> EndsQuoted(tail, key))
    decreases |e|
  {
    if e == [] {
      assert e + tail == tail;
    } else if e[0] == BACKSLASH {
      EscapedInFront(e[2..], tail, key);
      assert (e + tail)[1..] == [e[1]] + (e[2..] + tail) && (e + tail)[2..] == e[2..] + tail;
      assert ([e[1]] + (e[2..] + tail))[1..] == e[2..] + tail;
    } else {
      EscapedInFront(e[1..], tail, key);
      assert (e + tail)[1..] == e[1..] + tail;
    }
  }

  /** Escaping keeps what a string hits. */
  lemma {:induction false} HitsOfEscape(s: string, key: string)
    requires PlainChars(key)
    ensures WellEscaped(Escape(s))
    ensures Escape(s) == key <==> s == key
    ensures EndsQuoted(Escape(s), key) <==> EndsQuoted(s, key)
    decreases s
  {
    if s != [] {
      var tail := Escape(s[1..]);
      PieceOfEscape(s[0]);
      PieceInFront(s[0], EscapeChar(s[0]), tail, key);
      HitsOfEscape(s[1..], key);
      if key != [] {
        HitsOfEscape(s[1..], key[1..]);
        assert key == [key[0]] + key[1..] && s == [s[0]] + s[1..];
      }
    }
  }

  lemma PieceOfEscape(c: char)
    ensures Piece(c, EscapeChar(c))
  {
    var e := EscapeChar(c);
    assert e == [c] || e == [' '] || (e[0] == BACKSLASH && e[2..] == []);
    assert |e| == 1 ==> e[1..] == [];
  }

  lemma {:induction false} EscapeOfPlain(key: string)
    requires PlainChars(key)
    ensures Escape(key) == key && Clean(key) == key
    decreases key
  {
    hide EscapeChar;
    if key != [] {
      EscapeOfPlain(key[1..]);
      assert EscapeChar(key[0]) == [key[0]] && CleanChar(key[0]) == key[0];
      assert key == [key[0]] + key[1..];
    }
  }

  /** Searching from the opening quote of a printed string on. */
  lemma AfterQuoted(s: string, rest: string, key: string)
    requires PlainKey(key) && rest != [] && rest[0] != key[0]
    ensures After(Quote(s) + rest, Needle(key))
         == if Hits(s, key) then Some(rest) else After(rest, Needle(key))
  {
    hide After, Escape, EndsQuoted;
    HitsOfEscape(s, key);
    AfterRaw(Escape(s), rest, key);
  }

  // ----- The loops -----

  /** escapeJson. */
  method EscapeJson(text: string) returns (out: string)
    ensures out == Escape(text)
  {
    hide EscapeChar;
    out := [];
    for i := 0 to |text|
      invariant out + Escape(text[i..]) == Escape(text)
    {
      assert text[i..][1..] == text[i + 1..];
      assert Escape(text[i..]) == EscapeChar(text[i]) + Escape(text[i + 1..]);
      out := out + EscapeChar(text[i]);
    }
  }

  /** std::string::find: the position of the first occurrence at or behind `from`. */
  method Find(text: string, needle: string, from: nat) returns (r: Option<nat>)
    requires needle != [] && from <= |text|
    ensures r.None? ==> After(text[from..], needle) == None
    ensures r.Some? ==> from <= r.value && r.value + |needle| <= |text|
                        && After(text[from..], needle) == Some(text[r.value + |needle|..])
  {
    var i := from;
    while i < |text|
      invariant from <= i <= |text|
      invariant After(text[from..], needle) == After(text[i..], needle)
    {
      if i + |needle| <= |text| && text[i..i + |needle|] == needle {
        assert text[i..][..|needle|] == needle;
        assert text[i..][|needle|..] == text[i + |needle|..];
        return Some(i);
      }
      assert i + |needle| <= |text| ==> text[i..][..|needle|] == text[i..i + |needle|];
      assert text[i..][1..] == text[i + 1..];
      i := i + 1;
    }
    r := None;
  }

  method SkipWhitespace(text: string, pos: nat) returns (p: nat)
    requires pos <= |text|
    ensures pos <= p <= |text| && text[p..] == SkipSpace(text[pos..])
  {
    p := pos;
    while p < |text| && IsSpace(text[p])
      invariant pos <= p <= |text|
      invariant SkipSpace(text[p..]) == SkipSpace(text[pos..])
    {
      assert text[p..][1..] == text[p + 1..];
      p := p + 1;
    }
  }

  /** findJsonValue, by position. */
  method FindJsonValue(json: string, key: string) returns (r: Option<nat>)
    ensures r.None? <==> Value(json, key).None?
    ensures r.Some? ==> r.value <= |json| && Value(json, key) == Some(json[r.value..])
  {
    var keyPos := Find(json, Needle(key), 0);
    assert json[0..] == json;
    if keyPos.None? {
      return None;
    }
    var colon := Find(json, ":", keyPos.value + |Needle(key)|);
    if colon.None? {
      return None;
    }
    var pos := SkipWhitespace(json, colon.value + 1);
    r := Some(pos);
  }

  /** extractJsonString. */
  method ExtractJsonString(json: string, key: string) returns (r: Option<string>)
    ensures r == StringValue(json, key)
  {
    var valuePos := FindJsonValue(json, key);
    if valuePos.None? || valuePos.value >= |json| || json[valuePos.value] != QUOTE {
      return None;
    }
    hide Value, Resume;
    var out: string := [];
    var i := valuePos.value + 1;
    ghost var v := json[valuePos.value..];
    assert v[1..] == json[i..];
    ghost var total := StringValue(json, key);
    ResumePrepend(out, QUOTE, ReadString(json[i..]));
    while i < |json|
      invariant i <= |json|
      invariant total == Resume(out, ReadString(json[i..]))
    {
      ghost var rest := json[i..];
      var c := json[i];
      if c == QUOTE {
        ResumeDone(out);
        return Some(out);
      }
      if c == BACKSLASH && i + 1 < |json| {
        assert rest[2..] == json[i + 2..];
        ResumePrepend(out, Unescape(json[i + 1]), ReadString(json[i + 2..]));
        out := out + [Unescape(json[i + 1])];
        i := i + 2;
      } else {
        assert rest[1..] == json[i + 1..];
        ResumePrepend(out, c, ReadString(json[i + 1..]));
        out := out + [c];
        i := i + 1;
      }
    }
    ResumeDone(out);
    r := None;
  }

  /** extractJsonNumber. */
  method ExtractJsonNumber(json: string, key: string) returns (r: Option<nat>)
    ensures r == NumberValue(json, key)
  {
    var valuePos := FindJsonValue(json, key);
    if valuePos.None? {
      return None;
    }
    var i := valuePos.value;
    if i >= |json| || !IsDigit(json[i]) {
      return None;
    }
    var parsed := 0;
    while i < |json| && IsDigit(json[i])
      invariant valuePos.value <= i <= |json| && parsed >= 0
      invariant ReadDigits(json[valuePos.value..], 0) == ReadDigits(json[i..], parsed)
    {
      assert json[i..][1..] == json[i + 1..];
      parsed := 10 * parsed + Digit(json[i]);
      i := i + 1;
    }
    r := Some(parsed);
  }
}
