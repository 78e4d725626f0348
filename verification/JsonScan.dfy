/**
 * The string-aware bracket counters: cutting a balanced value out of a text, splitting an array into
 * its objects, and reading an array of strings.  Proved exact on everything the program prints:
 * any tree of objects, arrays, strings and bare words, with any characters in the strings.
 */
module JsonScan {
  import opened Common
  import opened JsonText

  // ----- The scanner -----

  datatype Mode = Plain | InString | Escaped

  datatype State = State(depth: int, mode: Mode)

  function Step(s: State, open: char, close: char, c: char): State {
    match s.mode
    case Escaped => s.(mode := InString)
    case InString => s.(mode := if c == BACKSLASH then Escaped else if c == QUOTE then Plain else InString)
    case Plain =>
      if c == QUOTE then s.(mode := InString)
      else if c == open then s.(depth := s.depth + 1)
      else if c == close then s.(depth := s.depth - 1)
      else s
  }

  /** The character brings the depth back to zero, outside a string. */
  predicate Closes(s: State, close: char, c: char) {
    s.mode == Plain && c == close && s.depth == 1
  }

  predicate Brackets(open: char, close: char) {
    (open == '[' && close == ']') || (open == '{' && close == '}')
  }

  function Bump(k: nat, r: Option<nat>): Option<nat> {
    match r
    case None => None
    case Some(n) => Some(n + k)
  }

  /** How much text there is up to and including the closing bracket. */
  function Scan(text: string, open: char, close: char, s: State): (r: Option<nat>)
    requires Brackets(open, close)
    ensures r.Some? ==> 1 <= r.value <= |text|
    decreases |text|
  {
    if text == [] then None
    else if Closes(s, close, text[0]) then Some(1)
    else Bump(1, Scan(text[1..], open, close, Step(s, open, close, text[0])))
  }

  /** extractBalancedValue. */
  function BalancedValue(json: string, key: string, open: char, close: char): Option<string>
    requires Brackets(open, close)
  {
    match Value(json, key)
    case None => None
    case Some(v) =>
      if v == [] || v[0] != open then None
      else
        match Scan(v, open, close, State(0, Plain))
        case None => None
        case Some(n) => Some(v[..n])
  }

  /** The state behind a text none of whose characters closes. */
  function Walk(text: string, open: char, close: char, s: State): Option<State>
    decreases |text|
  {
    if text == [] then Some(s)
    else if Closes(s, close, text[0]) then None
    else Walk(text[1..], open, close, Step(s, open, close, text[0]))
  }

  lemma {:induction false} WalkOn(a: string, b: string, open: char, close: char, s: State)
    ensures Walk(a + b, open, close, s)
         == match Walk(a, open, close, s) { case None => None case Some(s') => Walk(b, open, close, s') }
    decreases a
  {
    if a == [] {
      assert a + b == b;
    } else {
      assert (a + b)[1..] == a[1..] + b;
      WalkOn(a[1..], b, open, close, Step(s, open, close, a[0]));
    }
  }

  lemma {:induction false} ScanOn(a: string, b: string, open: char, close: char, s: State)
    requires Brackets(open, close)
    requires Walk(a, open, close, s).Some?
    ensures Scan(a + b, open, close, s) == Bump(|a|, Scan(b, open, close, Walk(a, open, close, s).value))
    decreases a
  {
    if a == [] {
      assert a + b == b;
    } else {
      assert (a + b)[1..] == a[1..] + b;
      ScanOn(a[1..], b, open, close, Step(s, open, close, a[0]));
    }
  }

  // ----- Printed trees -----

  /** `Raw` is a string as another program escaped it. */
  datatype Json =
    | Str(text: string)
    | Raw(body: string)
    | Bare(text: string)
    | Arr(items: seq<Json>)
    | Obj(fields: seq<Field>)

  datatype Field = Field(key: string, value: Json)

  /** Numbers and literals: no quotes and no brackets. */
  predicate BareText(text: string) {
    forall i | 0 <= i < |text| :: text[i] !in "\"[]{}"
  }

  predicate Printable(j: Json) {
    match j
    case Str(_) => true
    case Raw(body) => WellEscaped(body)
    case Bare(text) => BareText(text)
    case Arr(items) => forall i | 0 <= i < |items| :: Printable(items[i])
    case Obj(fields) => forall i | 0 <= i < |fields| :: Printable(fields[i].value)
  }

  function Print(j: Json): string
    decreases j, 1
  {
    match j
    case Str(text) => Quote(text)
    case Raw(body) => [QUOTE] + body + [QUOTE]
    case Bare(text) => text
    case Arr(items) => "[" + PrintItems(items) + "]"
    case Obj(fields) => "{" + PrintFields(fields) + "}"
  }

  function PrintItems(items: seq<Json>): string
    decreases items, 0
  {
    if items == [] then []
    else if |items| == 1 then Print(items[0])
    else Print(items[0]) + "," + PrintItems(items[1..])
  }

  function PrintField(f: Field): string
    decreases f, 2
  {
    Quote(f.key) + ":" + Print(f.value)
  }

  function PrintFields(fields: seq<Field>): string
    decreases fields, 0
  {
    if fields == [] then []
    else if |fields| == 1 then PrintField(fields[0])
    else PrintField(fields[0]) + "," + PrintFields(fields[1..])
  }

  // ----- Printed text is neutral: a walk through it comes out as it went in -----

  ghost predicate Neutral(text: string, open: char, close: char, d: int) {
    Walk(text, open, close, State(d, Plain)) == Some(State(d, Plain))
  }

  lemma NeutralConcat(a: string, b: string, open: char, close: char, d: int)
    requires Neutral(a, open, close, d) && Neutral(b, open, close, d)
    ensures Neutral(a + b, open, close, d)
  {
    WalkOn(a, b, open, close, State(d, Plain));
  }

  lemma {:induction false} RawStaysInside(body: string, open: char, close: char, d: int)
    requires WellEscaped(body)
    ensures Walk(body, open, close, State(d, InString)) == Some(State(d, InString))
    decreases |body|
  {
    if body != [] {
      if body[0] == BACKSLASH {
        assert body[1..][0] == body[1] && body[1..][1..] == body[2..];
        RawStaysInside(body[2..], open, close, d);
      } else {
        RawStaysInside(body[1..], open, close, d);
      }
    }
  }

  lemma NeutralRaw(body: string, open: char, close: char, d: int)
    requires Brackets(open, close) && WellEscaped(body)
    ensures Neutral([QUOTE] + body + [QUOTE], open, close, d)
  {
    RawStaysInside(body, open, close, d);
    assert [QUOTE] + body + [QUOTE] == [QUOTE] + (body + [QUOTE]);
    WalkOn(body, [QUOTE], open, close, State(d, InString));
  }

  lemma NeutralQuote(s: string, open: char, close: char, d: int)
    requires Brackets(open, close)
    ensures Neutral(Quote(s), open, close, d)
  {
    hide Neutral;
    HitsOfEscape(s, []);
    NeutralRaw(Escape(s), open, close, d);
  }

  lemma {:induction false} NeutralBare(text: string, open: char, close: char, d: int)
    requires Brackets(open, close) && BareText(text)
    ensures Neutral(text, open, close, d)
    decreases text
  {
    if text != [] {
      NeutralBare(text[1..], open, close, d);
    }
  }

  /** A bracketed text: one level up and back, or no level at all, for either kind of counter. */
  lemma NeutralBracketed(inner: string, open: char, close: char, o: char, c: char, d: int)
    requires Brackets(open, close) && Brackets(o, c) && d >= 1
    requires Neutral(inner, open, close, if o == open then d + 1 else d)
    ensures Neutral([o] + inner + [c], open, close, d)
  {
    var s := State(d, Plain);
    var s' := Step(s, open, close, o);
    assert [o] + inner + [c] == [o] + (inner + [c]);
    assert ([o] + (inner + [c]))[1..] == inner + [c];
    WalkOn(inner, [c], open, close, s');
  }

  lemma {:induction false} NeutralTree(j: Json, open: char, close: char, d: int)
    requires Brackets(open, close) && Printable(j) && d >= 1
    ensures Neutral(Print(j), open, close, d)
    decreases j, 1
  {
    match j
    case Str(text) => NeutralQuote(text, open, close, d);
    case Raw(body) => NeutralRaw(body, open, close, d);
    case Bare(text) => NeutralBare(text, open, close, d);
    case Arr(items) =>
      NeutralItems(items, open, close, if open == '[' then d + 1 else d);
      NeutralBracketed(PrintItems(items), open, close, '[', ']', d);
    case Obj(fields) =>
      NeutralFields(fields, open, close, if open == '{' then d + 1 else d);
      NeutralBracketed(PrintFields(fields), open, close, '{', '}', d);
  }

  lemma {:induction false} NeutralItems(items: seq<Json>, open: char, close: char, d: int)
    requires Brackets(open, close) && d >= 1
    requires forall i | 0 <= i < |items| :: Printable(items[i])
    ensures Neutral(PrintItems(items), open, close, d)
    decreases items, 0
  {
    if items != [] {
      NeutralTree(items[0], open, close, d);
      if |items| > 1 {
        NeutralItems(items[1..], open, close, d);
        NeutralBare(",", open, close, d);
        NeutralConcat(Print(items[0]), ",", open, close, d);
        NeutralConcat(Print(items[0]) + ",", PrintItems(items[1..]), open, close, d);
      }
    }
  }

  lemma {:induction false} NeutralFields(fields: seq<Field>, open: char, close: char, d: int)
    requires Brackets(open, close) && d >= 1
    requires forall i | 0 <= i < |fields| :: Printable(fields[i].value)
    ensures Neutral(PrintFields(fields), open, close, d)
    decreases fields, 0
  {
    if fields != [] {
      var f := fields[0];
      NeutralQuote(f.key, open, close, d);
      NeutralTree(f.value, open, close, d);
      NeutralBare(":", open, close, d);
      NeutralConcat(Quote(f.key), ":", open, close, d);
      NeutralConcat(Quote(f.key) + ":", Print(f.value), open, close, d);
      if |fields| > 1 {
        NeutralFields(fields[1..], open, close, d);
        NeutralBare(",", open, close, d);
        NeutralConcat(PrintField(f), ",", open, close, d);
        NeutralConcat(PrintField(f) + ",", PrintFields(fields[1..]), open, close, d);
      }
    }
  }

  function OpenOf(j: Json): char
    requires j.Arr? || j.Obj?
  {
    if j.Arr? then '[' else '{'
  }

  function CloseOf(j: Json): char
    requires j.Arr? || j.Obj?
  {
    if j.Arr? then ']' else '}'
  }

  /** From the opening bracket of a printed array or object, whatever its strings hold and whatever
      text follows, the scan stops exactly at its own closing bracket. */
  lemma ScanStopsAtMatchingBracket(j: Json, rest: string)
    requires Printable(j) && (j.Arr? || j.Obj?)
    ensures Scan(Print(j) + rest, OpenOf(j), CloseOf(j), State(0, Plain)) == Some(|Print(j)|)
  {
    var o, c := OpenOf(j), CloseOf(j);
    var inner := if j.Arr? then PrintItems(j.items) else PrintFields(j.fields);
    if j.Arr? {
      NeutralItems(j.items, o, c, 1);
    } else {
      NeutralFields(j.fields, o, c, 1);
    }
    assert Print(j) + rest == [o] + (inner + ([c] + rest));
    assert ([o] + (inner + ([c] + rest)))[1..] == inner + ([c] + rest);
    ScanOn(inner, [c] + rest, o, c, State(1, Plain));
  }

  lemma BalancedValueOf(json: string, key: string, j: Json, rest: string)
    requires Printable(j) && (j.Arr? || j.Obj?)
    requires Value(json, key) == Some(Print(j) + rest)
    ensures BalancedValue(json, key, OpenOf(j), CloseOf(j)) == Some(Print(j))
  {
    ScanStopsAtMatchingBracket(j, rest);
    assert (Print(j) + rest)[0] == OpenOf(j);
    assert (Print(j) + rest)[..|Print(j)|] == Print(j);
  }

  // ----- Splitting an array into its objects -----

  function Grow(current: Option<string>, c: char): Option<string> {
    match current
    case None => None
    case Some(t) => Some(t + [c])
  }

  /** splitObjectArray from any point on: `current` is the text since an object's opening brace. */
  function Split(text: string, s: State, current: Option<string>): seq<string>
    decreases |text|
  {
    if text == [] then []
    else
      var c := text[0];
      var s' := Step(s, '{', '}', c);
      if s.mode == Plain && c == '{' && s.depth == 0 then
        Split(text[1..], s', Some([c]))
      else if s.mode == Plain && c == '}' && s'.depth == 0 && current.Some? then
        [current.value + [c]] + Split(text[1..], s', None)
      else
        Split(text[1..], s', Grow(current, c))
  }

  lemma {:induction false} SplitInsideObject(a: string, b: string, s: State, current: string)
    requires s.depth >= 1 && Walk(a, '{', '}', s).Some?
    ensures Split(a + b, s, Some(current)) == Split(b, Walk(a, '{', '}', s).value, Some(current + a))
    decreases a
  {
    if a == [] {
      assert a + b == b && current + a == current;
    } else {
      assert (a + b)[1..] == a[1..] + b;
      assert current + [a[0]] + a[1..] == current + a;
      SplitInsideObject(a[1..], b, Step(s, '{', '}', a[0]), current + [a[0]]);
    }
  }

  lemma SplitAtBraces(text: string, current: string)
    ensures Split(['{'] + text, State(0, Plain), None) == Split(text, State(1, Plain), Some(['{']))
    ensures Split(['}'] + text, State(1, Plain), Some(current))
         == [current + ['}']] + Split(text, State(0, Plain), None)
  {
    assert (['{'] + text)[1..] == text;
    assert (['}'] + text)[1..] == text;
  }

  lemma SplitOneObject(fields: seq<Field>, rest: string)
    requires Printable(Obj(fields))
    ensures Split(Print(Obj(fields)) + rest, State(0, Plain), None)
         == [Print(Obj(fields))] + Split(rest, State(0, Plain), None)
  {
    hide Split, Step, Walk, PrintFields;
    var inner := PrintFields(fields);
    NeutralFields(fields, '{', '}', 1);
    assert Print(Obj(fields)) + rest == ['{'] + (inner + (['}'] + rest));
    SplitAtBraces(inner + (['}'] + rest), []);
    SplitInsideObject(inner, ['}'] + rest, State(1, Plain), ['{']);
    SplitAtBraces(rest, ['{'] + inner);
    assert ['{'] + inner + ['}'] == Print(Obj(fields));
  }

  lemma SplitSkips(c: char, rest: string)
    requires c != '{' && c != '}' && c != QUOTE
    ensures Split([c] + rest, State(0, Plain), None) == Split(rest, State(0, Plain), None)
  {
    assert ([c] + rest)[1..] == rest;
  }

  lemma SplitObjectAndComma(fields: seq<Field>, tail: string)
    requires Printable(Obj(fields))
    ensures Split(Print(Obj(fields)) + ([','] + tail), State(0, Plain), None)
         == [Print(Obj(fields))] + Split(tail, State(0, Plain), None)
  {
    assert ',' != QUOTE;
    hide *;
    SplitOneObject(fields, [','] + tail);
    SplitSkips(',', tail);
  }

  /** The objects of a printed array, as printed. */
  function Prints(items: seq<Json>): (texts: seq<string>)
    ensures |texts| == |items|
  {
    if items == [] then [] else [Print(items[0])] + Prints(items[1..])
  }

  lemma {:induction false} SplitItems(items: seq<Json>, rest: string)
    requires forall i | 0 <= i < |items| :: items[i].Obj? && Printable(items[i])
    ensures Split(PrintItems(items) + rest, State(0, Plain), None)
         == Prints(items) + Split(rest, State(0, Plain), None)
    decreases items
  {
    hide Split, Print, Printable;
    if items == [] {
      assert PrintItems(items) + rest == rest;
    } else if |items| == 1 {
      assert Prints(items) == [Print(items[0])] + Prints(items[1..]);
      SplitOneObject(items[0].fields, rest);
    } else {
      var tail := PrintItems(items[1..]) + rest;
      CommaAfter(Print(items[0]), PrintItems(items[1..]), rest);
      SplitItems(items[1..], rest);
      SplitObjectAndComma(items[0].fields, tail);
      AppendTexts(Print(items[0]), Prints(items[1..]), Split(rest, State(0, Plain), None));
    }
  }

  lemma CommaAfter(a: string, b: string, rest: string)
    ensures (a + "," + b) + rest == a + ([','] + (b + rest))
  {
  }

  lemma AppendTexts(a: string, b: seq<string>, c: seq<string>)
    ensures [a] + (b + c) == ([a] + b) + c
  {
  }

  lemma SplitNothing()
    ensures Split([], State(0, Plain), None) == []
  {
  }

  /** Splitting a printed array of objects gives back each object's own text, in order. */
  lemma SplitUndoesPrint(items: seq<Json>)
    requires forall i | 0 <= i < |items| :: items[i].Obj? && Printable(items[i])
    ensures Split(Print(Arr(items)), State(0, Plain), None) == Prints(items)
  {
    var tail := PrintItems(items) + "]";
    hide PrintItems, Printable, Prints, Split;
    assert Print(Arr(items)) == ['['] + tail;
    SplitNothing();
    SplitSkips('[', tail);
    SplitItems(items, "]");
    SplitSkips(']', []);
    assert ([']'] + []) == "]";
  }

  // ----- Reading an array of strings -----

  /** The text behind the closing quote of a string whose opening quote has been read. */
  function BehindString(text: string): (r: Option<string>)
    ensures r.Some? <==> ReadString(text).Some?
    ensures r.Some? ==> |r.value| < |text|
    decreases |text|
  {
    if text == [] then None
    else if text[0] == QUOTE then Some(text[1..])
    else if text[0] == BACKSLASH && |text| > 1 then BehindString(text[2..])
    else BehindString(text[1..])
  }

  /** The strings of a text, in order; one that never closes is dropped. */
  function Strings(text: string): seq<string>
    decreases |text|
  {
    if text == [] then []
    else if text[0] != QUOTE then Strings(text[1..])
    else if BehindString(text[1..]).None? then []
    else [ReadString(text[1..]).value] + Strings(BehindString(text[1..]).value)
  }

  /** parseStringArray. */
  function StringArray(json: string, key: string): seq<string> {
    match BalancedValue(json, key, '[', ']')
    case None => []
    case Some(arr) => if |arr| < 2 then [] else Strings(arr[1..|arr| - 1])
  }

  lemma {:induction false} BehindEscape(s: string, rest: string)
    ensures BehindString(Escape(s) + [QUOTE] + rest) == Some(rest)
    decreases s
  {
    var text := Escape(s) + [QUOTE] + rest;
    if s == [] {
      assert text == [QUOTE] + rest;
    } else {
      hide EscapeChar;
      var tail := Escape(s[1..]) + [QUOTE] + rest;
      var e := EscapeChar(s[0]);
      assert text == e + tail;
      assert text[0] == e[0];
      assert text[|e|..] == tail;
      BehindEscape(s[1..], rest);
    }
  }

  function StrItems(texts: seq<string>): (items: seq<Json>)
    ensures |items| == |texts|
    ensures forall i | 0 <= i < |items| :: items[i] == Str(texts[i])
  {
    if texts == [] then [] else [Str(texts[0])] + StrItems(texts[1..])
  }

  function Cleaned(texts: seq<string>): (cleaned: seq<string>)
    ensures |cleaned| == |texts|
  {
    if texts == [] then [] else [Clean(texts[0])] + Cleaned(texts[1..])
  }

  lemma StringsOfQuote(s: string, rest: string)
    ensures Strings(Quote(s) + rest) == [Clean(s)] + Strings(rest)
  {
    assert Quote(s) + rest == [QUOTE] + (Escape(s) + [QUOTE] + rest);
    assert ([QUOTE] + (Escape(s) + [QUOTE] + rest))[1..] == Escape(s) + [QUOTE] + rest;
    ReadUndoesEscape(s, rest);
    BehindEscape(s, rest);
  }

  lemma {:induction false} StringsOfItems(texts: seq<string>)
    ensures Strings(PrintItems(StrItems(texts))) == Cleaned(texts)
    decreases texts
  {
    if texts == [] {
    } else if |texts| == 1 {
      StringsOfQuote(texts[0], []);
      assert Quote(texts[0]) + [] == Quote(texts[0]);
      assert StrItems(texts) == [Str(texts[0])];
    } else {
      var items := StrItems(texts);
      assert items[1..] == StrItems(texts[1..]);
      var tail := PrintItems(items[1..]);
      assert PrintItems(items) == Quote(texts[0]) + ([','] + tail);
      StringsOfQuote(texts[0], [','] + tail);
      assert ([','] + tail)[1..] == tail;
      StringsOfItems(texts[1..]);
    }
  }

  /** Reading a printed array of strings, found behind a key, gives the strings back up to Clean. */
  lemma StringArrayUndoesPrint(json: string, key: string, texts: seq<string>, rest: string)
    requires Value(json, key) == Some(Print(Arr(StrItems(texts))) + rest)
    ensures StringArray(json, key) == Cleaned(texts)
  {
    var j := Arr(StrItems(texts));
    BalancedValueOf(json, key, j, rest);
    var arr := Print(j);
    assert arr[1..|arr| - 1] == PrintItems(StrItems(texts));
    StringsOfItems(texts);
  }

  // ----- The loops -----

  /** Reading on inside a string, as parseStringArray's state does. */
  ghost function StringsFrom(text: string, current: string, escaped: bool): seq<string>
    decreases |text|
  {
    if text == [] then []
    else if escaped then StringsFrom(text[1..], current + [Unescape(text[0])], false)
    else if text[0] == BACKSLASH then StringsFrom(text[1..], current, true)
    else if text[0] == QUOTE then [current] + Strings(text[1..])
    else StringsFrom(text[1..], current + [text[0]], false)
  }

  lemma {:induction false} StringsFromReads(text: string, current: string)
    ensures StringsFrom(text, current, false)
         == if BehindString(text).None? then []
            else [current + ReadString(text).value] + Strings(BehindString(text).value)
    decreases |text|
  {
    if text == [] {
    } else if text[0] == QUOTE {
      assert current + [] == current;
    } else if text[0] == BACKSLASH {
      if |text| > 1 {
        var c := Unescape(text[1]);
        assert text[1..][1..] == text[2..] && text[1..][0] == text[1];
        StringsFromReads(text[2..], current + [c]);
        if BehindString(text).Some? {
          assert current + [c] + ReadString(text[2..]).value == current + ReadString(text).value;
        }
      }
    } else {
      StringsFromReads(text[1..], current + [text[0]]);
      if BehindString(text).Some? {
        assert current + [text[0]] + ReadString(text[1..]).value == current + ReadString(text).value;
      }
    }
  }

  method ParseStringArray(json: string, key: string) returns (values: seq<string>)
    ensures values == StringArray(json, key)
  {
    values := [];
    var arrayJson := ExtractBalancedValue(json, key, '[', ']');
    if arrayJson.None? || |arrayJson.value| < 2 {
      return;
    }
    hide BalancedValue, BehindString;
    var arr := arrayJson.value;
    var last := |arr| - 1;
    var inString, escaped := false, false;
    var current: string := [];
    ghost var total := Strings(arr[1..last]);
    for i := 1 to last
      invariant total == values + if inString then StringsFrom(arr[i..last], current, escaped) else Strings(arr[i..last])
      invariant !inString ==> !escaped
    {
      var c := arr[i];
      ghost var rest := arr[i + 1..last];
      assert arr[i..last] == [c] + rest;
      assert ([c] + rest)[1..] == rest;
      if !inString {
        if c == QUOTE {
          inString := true;
          current := [];
          StringsOpening(rest);
        }
      } else if escaped {
        current := current + [Unescape(c)];
        escaped := false;
      } else if c == BACKSLASH {
        escaped := true;
      } else if c == QUOTE {
        inString := false;
        values := values + [current];
      } else {
        current := current + [c];
      }
    }
    SplitLast(values);
  }

  lemma StringsOpening(rest: string)
    ensures Strings([QUOTE] + rest) == StringsFrom(rest, [], false)
  {
    assert ([QUOTE] + rest)[1..] == rest;
    StringsFromReads(rest, []);
    if BehindString(rest).Some? {
      assert [] + ReadString(rest).value == ReadString(rest).value;
    }
  }

  /** The branch structure of both scanning loops, for one character. */
  method ScanChar(s: State, open: char, close: char, c: char) returns (s': State)
    ensures s' == Step(s, open, close, c)
  {
    var depth, inString, escaped := s.depth, s.mode != Plain, s.mode == Escaped;
    if inString {
      if escaped {
        escaped := false;
      } else if c == BACKSLASH {
        escaped := true;
      } else if c == QUOTE {
        inString := false;
      }
    } else if c == QUOTE {
      inString := true;
    } else if c == open {
      depth := depth + 1;
    } else if c == close {
      depth := depth - 1;
    }
    s' := State(depth, if escaped then Escaped else if inString then InString else Plain);
  }

  method ExtractBalancedValue(json: string, key: string, open: char, close: char) returns (r: Option<string>)
    requires Brackets(open, close)
    ensures r == BalancedValue(json, key, open, close)
  {
    var valuePos := FindJsonValue(json, key);
    if valuePos.None? || valuePos.value >= |json| || json[valuePos.value] != open {
      return None;
    }
    hide Value, Step;
    var start := valuePos.value;
    ghost var v := json[start..];
    ghost var total := Scan(v, open, close, State(0, Plain));
    var s := State(0, Plain);
    var i := start;
    while i < |json|
      invariant start <= i <= |json|
      invariant total == Bump(i - start, Scan(json[i..], open, close, s))
    {
      assert json[i..][1..] == json[i + 1..];
      if Closes(s, close, json[i]) {
        assert v[..i - start + 1] == json[start..i + 1];
        return Some(json[start..i + 1]);
      }
      s := ScanChar(s, open, close, json[i]);
      i := i + 1;
    }
    r := None;
  }

  lemma SplitLast(t: seq<string>)
    ensures t + [] == t
  {
  }

  method SplitObjectArray(arrayJson: string) returns (objects: seq<string>)
    ensures objects == Split(arrayJson, State(0, Plain), None)
  {
    objects := [];
    var s := State(0, Plain);
    var objectStart: Option<nat> := None;
    assert arrayJson[0..] == arrayJson;
    ghost var total := Split(arrayJson, s, None);
    for i := 0 to |arrayJson|
      invariant objectStart.Some? ==> objectStart.value <= i
      invariant total == objects
        + Split(arrayJson[i..], s, if objectStart.None? then None else Some(arrayJson[objectStart.value..i]))
    {
      var c := arrayJson[i];
      assert arrayJson[i..][1..] == arrayJson[i + 1..];
      if objectStart.Some? {
        assert arrayJson[objectStart.value..i] + [c] == arrayJson[objectStart.value..i + 1];
      }
      assert [c] == arrayJson[i..i + 1];
      var s' := ScanChar(s, '{', '}', c);
      if s.mode == Plain && c == '{' {
        if s.depth == 0 {
          objectStart := Some(i);
        }
      } else if s.mode == Plain && c == '}' && s'.depth == 0 && objectStart.Some? {
        objects := objects + [arrayJson[objectStart.value..i + 1]];
        objectStart := None;
      }
      s := s';
    }
    assert arrayJson[|arrayJson|..] == [];
    SplitLast(objects);
  }
}
