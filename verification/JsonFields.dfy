/**
 * Reading one field of a printed object by key search: it is found when no string in front of it passes for the
 * key, and otherwise the value behind the first such string is read instead.
 */
module JsonFields {
  import opened Common
  import opened JsonText
  import opened JsonScan

  // ----- Where a search for a quoted key stops -----

  lemma PlainHits(s: string, key: string)
    requires PlainChars(s)
    ensures Hits(s, key) <==> s == key
  {
    NoQuotedEnd(s, key);
  }

  lemma {:induction false} NoQuotedEnd(s: string, key: string)
    requires QUOTE !in s
    ensures !EndsQuoted(s, key)
    decreases s
  {
    if s != [] {
      NoQuotedEnd(s[1..], key);
    }
  }

  /** A key that no separator starts. */
  predicate IsKey(key: string) {
    PlainKey(key) && key[0] != ':' && key[0] != ',' && ':' !in key
  }

  lemma KeyText(key: string)
    requires IsKey(key)
    ensures Quote(key) == Needle(key) && ':' !in "," + Quote(key)
  {
    EscapeOfPlain(key);
  }

  /** A value is found behind the next colon, once the key's search has stopped. */
  lemma ValueBehindColon(json: string, key: string, between: string, tail: string)
    requires After(json, Needle(key)) == Some(between + (":" + tail)) && ':' !in between
    requires tail != [] && !IsSpace(tail[0])
    ensures Value(json, key) == Some(tail)
  {
    AfterSkip(between, ":" + tail, ":");
    AfterHere(":", tail);
  }

  lemma SearchStopsAtKey(key: string, tail: string)
    requires IsKey(key)
    ensures After(Quote(key) + (":" + tail), Needle(key)) == Some(":" + tail)
  {
    hide After;
    AfterQuoted(key, ":" + tail, key);
  }

  lemma SearchPassesKey(k: string, tail: string, key: string)
    requires IsKey(key) && PlainChars(k) && k != key
    ensures After(Quote(k) + (":" + tail), Needle(key)) == After(tail, Needle(key))
  {
    hide After, Quote;
    PlainHits(k, key);
    AfterQuoted(k, ":" + tail, key);
    assert ":" + tail == [':'] + tail;
    AfterOther(':', tail, Needle(key));
  }

  lemma StringBehind(s: string, rest: string)
    ensures var v := Quote(s) + rest;
            v != [] && v[0] == QUOTE && !IsSpace(v[0]) && ReadString(v[1..]) == Some(Clean(s))
            && ReadNumber(v) == None
  {
    var v := Quote(s) + rest;
    assert v[1..] == Escape(s) + [QUOTE] + rest;
    ReadUndoesEscape(s, rest);
  }

  lemma Assoc(a: string, b: string, c: string)
    ensures (a + b) + c == a + (b + c)
    ensures [] + c == c
  {
  }

  // ----- Fields -----

  /** A field that holds a string, a number or a literal. */
  predicate Scalar(f: Field) {
    PlainChars(f.key) && (f.value.Str? || f.value.Raw? || f.value.Bare?) && Printable(f.value)
  }

  /** The value of the field passes for the quoted key. */
  predicate FieldHits(f: Field, key: string) {
    (f.value.Str? && Hits(f.value.text, key)) || (f.value.Raw? && Hits(f.value.body, key))
  }

  /** Fields that a search for the key passes. */
  predicate Passed(fields: seq<Field>, key: string) {
    forall i | 0 <= i < |fields| :: Scalar(fields[i]) && fields[i].key != key && !FieldHits(fields[i], key)
  }

  lemma FieldText(f: Field, rest: string)
    ensures PrintField(f) + rest == Quote(f.key) + (":" + (Print(f.value) + rest))
  {
    hide *;
    FieldShape(f);
    Regrouped(Quote(f.key), Print(f.value), rest);
  }

  lemma FieldShape(f: Field)
    ensures PrintField(f) == Quote(f.key) + ":" + Print(f.value)
  {
  }

  lemma Regrouped(key: string, value: string, rest: string)
    ensures (key + ":" + value) + rest == key + (":" + (value + rest))
    ensures (key + "," + value) + rest == key + ("," + (value + rest))
    ensures ([QUOTE] + key + [QUOTE]) + ("," + rest) == [QUOTE] + key + [QUOTE] + ("," + rest)
  {
  }

  /** Searching from a scalar field on. */
  lemma SearchField(f: Field, rest: string, key: string)
    requires IsKey(key) && Scalar(f) && f.key != key
    ensures After(PrintField(f) + ("," + rest), Needle(key))
         == if FieldHits(f, key) then Some("," + rest) else After(rest, Needle(key))
  {
    hide After, Quote, Hits, PrintField, WellEscaped;
    FieldText(f, "," + rest);
    SearchPassesKey(f.key, Print(f.value) + ("," + rest), key);
    assert "," + rest == [','] + rest;
    AfterOther(',', rest, Needle(key));
    match f.value
    case Str(text) => AfterQuoted(text, "," + rest, key);
    case Raw(body) => AfterRaw(body, "," + rest, key);
    case Bare(text) => AfterSkip(text, "," + rest, Needle(key));
  }

  /** Printed fields up to the comma in front of `rest`. */
  function Fields(fields: seq<Field>, rest: string): string {
    if fields == [] then rest else PrintField(fields[0]) + ("," + Fields(fields[1..], rest))
  }

  lemma {:induction false} SearchFields(fields: seq<Field>, rest: string, key: string)
    requires IsKey(key) && Passed(fields, key)
    ensures After(Fields(fields, rest), Needle(key)) == After(rest, Needle(key))
    decreases fields
  {
    hide After, PrintField, Scalar, FieldHits, IsKey;
    if fields != [] {
      SearchField(fields[0], Fields(fields[1..], rest), key);
      SearchFields(fields[1..], rest, key);
    }
  }

  lemma {:induction false} FieldsIs(a: seq<Field>, b: seq<Field>, rest: string)
    requires b != []
    ensures PrintFields(a + b) + rest == Fields(a, PrintFields(b) + rest)
    decreases a
  {
    hide PrintField;
    if a == [] {
      assert a + b == b;
    } else {
      assert (a + b)[1..] == a[1..] + b && (a + b)[0] == a[0];
      FieldsIs(a[1..], b, rest);
      Regrouped(PrintField(a[0]), PrintFields(a[1..] + b), rest);
    }
  }

  /** What is printed behind a field that the fields `b` follow. */
  function Behind(b: seq<Field>): string {
    if b == [] then "}" else "," + (PrintFields(b) + "}")
  }

  lemma FieldsFrom(g: Field, b: seq<Field>)
    ensures PrintFields([g] + b) + "}" == PrintField(g) + Behind(b)
  {
    hide PrintField;
    assert ([g] + b)[1..] == b && ([g] + b)[0] == g;
    if b != [] {
      Regrouped(PrintField(g), PrintFields(b), "}");
    }
  }

  /** A search gets to the first field that is not passed. */
  lemma SearchTo(a: seq<Field>, g: Field, b: seq<Field>, key: string)
    requires IsKey(key) && Passed(a, key)
    ensures After(Print(Obj(a + ([g] + b))), Needle(key)) == After(PrintField(g) + Behind(b), Needle(key))
  {
    ObjectShape(a + ([g] + b));
    hide *;
    FieldsIs(a, [g] + b, "}");
    FieldsFrom(g, b);
    SearchFields(a, PrintField(g) + Behind(b), key);
    AfterBrace(Fields(a, PrintField(g) + Behind(b)), key);
  }

  lemma ObjectShape(fields: seq<Field>)
    ensures Print(Obj(fields)) == "{" + (PrintFields(fields) + "}")
  {
    hide PrintFields;
  }

  lemma AfterBrace(text: string, key: string)
    ensures After("{" + text, Needle(key)) == After(text, Needle(key))
  {
    hide After;
    assert "{" + text == ['{'] + text;
    AfterOther('{', text, Needle(key));
  }

  /** The value starts with a character that is no space. */
  predicate Visible(value: Json) {
    Print(value) != [] && !IsSpace(Print(value)[0])
  }

  /** A field is found when all in front of it are passed. */
  lemma FieldFound(a: seq<Field>, g: Field, b: seq<Field>)
    requires IsKey(g.key) && Passed(a, g.key) && Visible(g.value)
    ensures Value(Print(Obj(a + ([g] + b))), g.key) == Some(Print(g.value) + Behind(b))
  {
    var json := Print(Obj(a + ([g] + b)));
    var tail := Print(g.value) + Behind(b);
    hide After, Quote, PrintField, Print, Passed, Value, Behind, PlainKey;
    SearchTo(a, g, b, g.key);
    FieldText(g, Behind(b));
    SearchStopsAtKey(g.key, tail);
    assert [] + (":" + tail) == ":" + tail;
    ValueBehindColon(json, g.key, [], tail);
  }

  /** When a string in front of it passes for the key, the value behind that string is read instead. */
  lemma NextFieldFound(a: seq<Field>, f: Field, g: Field, b: seq<Field>, key: string)
    requires IsKey(key) && Passed(a, key) && Scalar(f) && f.key != key && FieldHits(f, key)
    requires IsKey(g.key) && Visible(g.value)
    ensures Value(Print(Obj(a + ([f, g] + b))), key) == Some(Print(g.value) + Behind(b))
  {
    var json := Print(Obj(a + ([f, g] + b)));
    var tail := Print(g.value) + Behind(b);
    assert [f, g] + b == [f] + ([g] + b);
    assert Behind([g] + b) == "," + (PrintField(g) + Behind(b)) by {
      FieldsFrom(g, b);
    }
    KeyText(g.key);
    hide After, Quote, PrintField, Print, Passed, Value, Behind, FieldHits, Scalar, PlainKey;
    SearchTo(a, f, [g] + b, key);
    SearchField(f, PrintField(g) + Behind(b), key);
    FieldText(g, Behind(b));
    Assoc(",", Quote(g.key), ":" + tail);
    ValueBehindColon(json, key, "," + Quote(g.key), tail);
  }

  lemma LastPassed(f: Field, key: string)
    requires IsKey(key) && key[0] != '}' && Passed([f], key)
    ensures After(PrintField(f) + "}", Needle(key)) == None
  {
    assert [f][0] == f;
    var tail := Print(f.value) + "}";
    assert After("}", Needle(key)) == None by {
      AfterOther('}', [], Needle(key));
      assert ['}'] + [] == "}";
    }
    hide After, Quote, Hits, PrintField, WellEscaped;
    FieldText(f, "}");
    SearchPassesKey(f.key, tail, key);
    match f.value
    case Str(text) => AfterQuoted(text, "}", key);
    case Raw(body) => AfterRaw(body, "}", key);
    case Bare(text) => AfterSkip(text, "}", Needle(key));
  }

  /** A key that the object does not have is not found when every field is passed. */
  lemma FieldAbsent(a: seq<Field>, f: Field, key: string)
    requires IsKey(key) && key[0] != '}' && Passed(a, key) && Passed([f], key)
    ensures Value(Print(Obj(a + [f])), key) == None
  {
    assert [f] + [] == [f];
    assert Behind([]) == "}";
    hide After, PrintField, Print, Passed, Behind;
    SearchTo(a, f, [], key);
    LastPassed(f, key);
  }

  // ----- Strings, numbers and arrays behind a key -----

  function TextField(key: string, text: string): Field {
    Field(key, Str(text))
  }

  function NumberField(key: string, n: nat): Field {
    Field(key, Bare(Decimal(n)))
  }

  lemma NumberFieldIs(key: string, n: nat)
    ensures PlainChars(key) ==> Scalar(NumberField(key, n))
    ensures Visible(Bare(Decimal(n))) && Print(Bare(Decimal(n))) == Decimal(n)
    ensures forall k :: !FieldHits(NumberField(key, n), k)
  {
    var text := Decimal(n);
    assert forall i | 0 <= i < |text| :: text[i] in text && IsDigit(text[i]);
    hide Decimal;
  }

  /** What a search that found the printed string, number or array reads. */
  lemma StringIs(json: string, key: string, text: string, rest: string)
    requires Value(json, key) == Some(Quote(text) + rest)
    ensures StringValue(json, key) == Some(Clean(text)) && NumberValue(json, key) == None
  {
    StringBehind(text, rest);
    hide Value, Quote, ReadString, ReadNumber;
  }

  lemma NumberIs(json: string, key: string, n: nat, b: seq<Field>)
    requires Value(json, key) == Some(Decimal(n) + Behind(b))
    ensures NumberValue(json, key) == Some(n)
  {
    hide PrintFields, Value, ReadNumber, Decimal;
    ReadNumberOfDecimal(n, Behind(b));
  }

  /** A string field in front of which everything is passed is read back. */
  lemma StringFieldRead(a: seq<Field>, key: string, text: string, b: seq<Field>)
    requires IsKey(key) && Passed(a, key)
    ensures StringValue(Print(Obj(a + ([TextField(key, text)] + b))), key) == Some(Clean(text))
  {
    assert Print(Str(text)) == Quote(text);
    StringBehind(text, Behind(b));
    hide Print, Passed, Value, Behind, Quote, ReadString;
    FieldFound(a, TextField(key, text), b);
    StringIs(Print(Obj(a + ([TextField(key, text)] + b))), key, text, Behind(b));
  }

  lemma NumberFieldRead(a: seq<Field>, key: string, n: nat, b: seq<Field>)
    requires IsKey(key) && Passed(a, key)
    ensures NumberValue(Print(Obj(a + ([NumberField(key, n)] + b))), key) == Some(n)
  {
    NumberFieldIs(key, n);
    hide Print, Passed, Value, Behind, Decimal;
    FieldFound(a, NumberField(key, n), b);
    NumberIs(Print(Obj(a + ([NumberField(key, n)] + b))), key, n, b);
  }

  /** What is not found, or not found to be an array, counts as an empty array. */
  lemma NoArray(json: string, key: string)
    requires match Value(json, key) case None => true case Some(v) => v == [] || v[0] != '['
    ensures StringArray(json, key) == []
  {
  }

  // ----- Printing three fields one after the other -----

  lemma ThreeFields(f1: Field, f2: Field, f3: Field)
    ensures PrintFields([f1, f2, f3]) == PrintField(f1) + "," + (PrintField(f2) + "," + PrintField(f3))
  {
    hide PrintField;
    assert [f1, f2, f3][1..] == [f2, f3] && [f2, f3][1..] == [f3];
    assert PrintFields([f3]) == PrintField(f3);
    assert PrintFields([f2, f3]) == PrintField(f2) + "," + PrintField(f3);
  }

  lemma ThreeRegrouped(k1: string, v1: string, k2: string, v2: string, k3: string, v3: string)
    ensures "{" + ((k1 + ":" + v1) + "," + ((k2 + ":" + v2) + "," + (k3 + ":" + v3)) + "}")
         == "{" + k1 + ":" + v1 + "," + k2 + ":" + v2 + "," + k3 + ":" + v3 + "}"
  {
  }

  lemma PrintThree(f1: Field, f2: Field, f3: Field)
    requires IsKey(f1.key) && IsKey(f2.key) && IsKey(f3.key)
    ensures Print(Obj([f1, f2, f3]))
         == "{" + Needle(f1.key) + ":" + Print(f1.value) + "," + Needle(f2.key) + ":" + Print(f2.value)
          + "," + Needle(f3.key) + ":" + Print(f3.value) + "}"
  {
    ObjectShape([f1, f2, f3]);
    hide *;
    KeyText(f1.key);
    KeyText(f2.key);
    KeyText(f3.key);
    FieldShape(f1);
    FieldShape(f2);
    FieldShape(f3);
    ThreeFields(f1, f2, f3);
    ThreeRegrouped(Needle(f1.key), Print(f1.value), Needle(f2.key), Print(f2.value), Needle(f3.key), Print(f3.value));
  }
}
