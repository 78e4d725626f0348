/**
 * The candidate payload two clients exchange, printed by hand and parsed by key search.
 *
 * The main result is exact and covers every list: parsing a printed list gives the list back with its
 * strings cleaned, less the candidates the parser cannot keep.
 */
module Candidates {
  import opened Common
  import opened JsonText
  import opened JsonScan
  import opened JsonFields

  datatype Candidate = Candidate(kind: string, address: string, port: uint16)

  // ----- Printing -----

  function CandidateJson(c: Candidate): Json {
    Obj([TextField("type", c.kind), TextField("address", c.address), NumberField("port", c.port)])
  }

  function CandidateItems(cs: seq<Candidate>): (items: seq<Json>)
    ensures |items| == |cs|
    ensures forall i | 0 <= i < |cs| :: items[i] == CandidateJson(cs[i])
  {
    if cs == [] then [] else [CandidateJson(cs[0])] + CandidateItems(cs[1..])
  }

  function PayloadJson(cs: seq<Candidate>): Json {
    Obj([Field("version", Bare("1")), TextField("transport", "udp"), Field("candidates", Arr(CandidateItems(cs)))])
  }

  // ----- Parsing -----

  function ParseCandidate(text: string): Candidate {
    var port := match NumberValue(text, "port") { case None => 0 case Some(n) => n };
    Candidate(
      OrElse(StringValue(text, "type"), "host"),
      OrElse(StringValue(text, "address"), ""),
      Clamp(port, 0, 0xffff))
  }

  predicate Usable(c: Candidate) {
    c.address != "" && c.port != 0
  }

  function ParseObjects(objects: seq<string>): seq<Candidate> {
    if objects == [] then []
    else
      var c := ParseCandidate(objects[0]);
      (if Usable(c) then [c] else []) + ParseObjects(objects[1..])
  }

  function ParsePayload(payload: string): seq<Candidate> {
    match BalancedValue(payload, "candidates", '[', ']')
    case None => []
    case Some(arr) => ParseObjects(Split(arr, State(0, Plain), None))
  }

  // ----- What survives -----

  /** The parser finds the port of this candidate: its type does not pass for the key `port`. */
  predicate PortFound(c: Candidate) {
    !Hits(c.kind, "port")
  }

  function Survivor(c: Candidate): Candidate {
    Candidate(Clean(c.kind), Clean(c.address), if PortFound(c) then c.port else 0)
  }

  /** The list a receiver ends up with. */
  function Survivors(cs: seq<Candidate>): seq<Candidate> {
    if cs == [] then []
    else
      (if Usable(Survivor(cs[0])) then [Survivor(cs[0])] else []) + Survivors(cs[1..])
  }

  // ----- One object -----

  function ObjectText(c: Candidate): string {
    Print(CandidateJson(c))
  }

  lemma ObjectKeys()
    ensures IsKey("type") && IsKey("address") && IsKey("port")
    ensures PlainChars("type") && PlainChars("address")
  {
  }

  lemma TextVisible(text: string)
    ensures Visible(Str(text)) && Print(Str(text)) == Quote(text)
  {
    assert Quote(text)[0] == QUOTE;
  }

  lemma TypeFound(c: Candidate)
    ensures StringValue(ObjectText(c), "type") == Some(Clean(c.kind))
  {
    ObjectKeys();
    var t, a, p := TextField("type", c.kind), TextField("address", c.address), NumberField("port", c.port);
    assert [] + ([t] + [a, p]) == [t, a, p];
    hide IsKey, Print, StringValue;
    StringFieldRead([], "type", c.kind, [a, p]);
  }

  /** A type that passes for the key leads the search to the comma behind it, and so to the address all the same. */
  lemma AddressFound(c: Candidate)
    ensures StringValue(ObjectText(c), "address") == Some(Clean(c.address))
  {
    ObjectKeys();
    var t, a, p := TextField("type", c.kind), TextField("address", c.address), NumberField("port", c.port);
    assert [] + ([t, a] + [p]) == [t, a, p] && [t] + ([a] + [p]) == [t, a, p];
    TextVisible(c.address);
    hide IsKey, Print, StringValue, Value, Hits, Visible, Behind, Quote;
    if Hits(c.kind, "address") {
      NextFieldFound([], t, a, [p], "address");
      StringIs(ObjectText(c), "address", c.address, Behind([p]));
    } else {
      StringFieldRead([t], "address", c.address, [p]);
    }
  }

  /** The number is found unless the type passes for the key: then the search lands on the address. */
  lemma PortRead(c: Candidate)
    ensures NumberValue(ObjectText(c), "port") == if PortFound(c) then Some(c.port as nat) else None
  {
    ObjectKeys();
    var t, a, p := TextField("type", c.kind), TextField("address", c.address), NumberField("port", c.port);
    assert [] + ([t, a] + [p]) == [t, a, p] && [t] + ([a, p] + []) == [t, a, p] && [t, a] + ([p] + []) == [t, a, p];
    TextVisible(c.address);
    NumberFieldIs("port", c.port);
    hide IsKey, Print, NumberValue, Value, Hits, Visible, Behind, Quote, Decimal;
    if Hits(c.kind, "port") {
      NextFieldFound([], t, a, [p], "port");
      StringIs(ObjectText(c), "port", c.address, Behind([p]));
    } else if Hits(c.address, "port") {
      NextFieldFound([t], a, p, [], "port");
      NumberIs(ObjectText(c), "port", c.port, []);
    } else {
      NumberFieldRead([t, a], "port", c.port, []);
    }
  }

  lemma CandidateRoundTrip(c: Candidate)
    ensures ParseCandidate(ObjectText(c)) == Survivor(c)
  {
    TypeFound(c);
    AddressFound(c);
    PortRead(c);
    hide ObjectText, StringValue, NumberValue;
  }

  /** What an object does not say is a host candidate without address and port, which is not used. */
  lemma DefaultsRead(text: string)
    requires QUOTE !in text
    ensures ParseCandidate(text) == Candidate("host", "", 0)
  {
    NothingQuoted(text, "type");
    NothingQuoted(text, "address");
    NothingQuoted(text, "port");
    hide Value;
  }

  // ----- The payload -----

  lemma CandidatePrintable(c: Candidate)
    ensures Printable(CandidateJson(c))
  {
    var text := Decimal(c.port);
    assert forall i | 0 <= i < |text| :: text[i] in text && IsDigit(text[i]);
  }

  lemma ItemsPrintable(cs: seq<Candidate>)
    ensures Printable(Arr(CandidateItems(cs)))
    ensures forall i | 0 <= i < |cs| :: CandidateItems(cs)[i].Obj? && Printable(CandidateItems(cs)[i])
  {
    forall i | 0 <= i < |cs|
      ensures CandidateItems(cs)[i].Obj? && Printable(CandidateItems(cs)[i])
    {
      CandidatePrintable(cs[i]);
    }
  }

  lemma PayloadKeys()
    ensures IsKey("version") && IsKey("transport") && IsKey("candidates") && Scalar(Field("version", Bare("1")))
    ensures Scalar(TextField("transport", "udp")) && !FieldHits(TextField("transport", "udp"), "candidates")
  {
    PlainHits("udp", "candidates");
  }

  /** The search for the array passes everything in front of it. */
  lemma ArrayFound(cs: seq<Candidate>)
    ensures Value(Print(PayloadJson(cs)), "candidates") == Some(Print(Arr(CandidateItems(cs))) + "}")
  {
    PayloadKeys();
    var v, t, c := Field("version", Bare("1")), TextField("transport", "udp"), Field("candidates", Arr(CandidateItems(cs)));
    assert [v, t] + ([c] + []) == [v, t, c];
    assert Visible(c.value) by {
      assert Print(c.value)[0] == '[';
    }
    hide IsKey, Print, Value, Scalar, Visible;
    FieldFound([v, t], c, []);
  }

  lemma {:induction false} ParsePrintedObjects(cs: seq<Candidate>)
    ensures ParseObjects(Prints(CandidateItems(cs))) == Survivors(cs)
    decreases cs
  {
    if cs != [] {
      var items := CandidateItems(cs);
      CandidateRoundTrip(cs[0]);
      assert items[1..] == CandidateItems(cs[1..]);
      assert Prints(items) == [ObjectText(cs[0])] + Prints(items[1..]);
      ParsePrintedObjects(cs[1..]);
    }
  }

  /** Parsing the printed payload of any list of candidates gives exactly its survivors, in order. */
  lemma PayloadRoundTrip(cs: seq<Candidate>)
    ensures ParsePayload(Print(PayloadJson(cs))) == Survivors(cs)
  {
    var items := CandidateItems(cs);
    ItemsPrintable(cs);
    ArrayFound(cs);
    BalancedValueOf(Print(PayloadJson(cs)), "candidates", Arr(items), "}");
    SplitUndoesPrint(items);
    ParsePrintedObjects(cs);
  }

  // ----- When nothing is lost -----

  /** The candidates a client gathers: typed host, srflx or public, a real address, a real port. */
  predicate Gathered(c: Candidate) {
    (c.kind == "host" || c.kind == "srflx" || c.kind == "public")
    && c.address != "" && (forall i | 0 <= i < |c.address| :: IsDigit(c.address[i]) || c.address[i] == '.')
    && c.port != 0
  }

  lemma GatheredSurvives(c: Candidate)
    requires Gathered(c)
    ensures Survivor(c) == c && Usable(c)
  {
    assert PlainChars(c.kind) && PlainChars(c.address) && c.kind != "port";
    EscapeOfPlain(c.kind);
    EscapeOfPlain(c.address);
    PlainHits(c.kind, "port");
  }

  lemma {:induction false} AllGatheredSurvive(cs: seq<Candidate>)
    requires forall i | 0 <= i < |cs| :: Gathered(cs[i])
    ensures Survivors(cs) == cs
    decreases cs
  {
    if cs != [] {
      hide Gathered;
      GatheredSurvives(cs[0]);
      AllGatheredSurvive(cs[1..]);
      assert cs == [cs[0]] + cs[1..];
    }
  }

  /** ... so a list a client gathered comes back as it was. */
  lemma GatheredRoundTrip(cs: seq<Candidate>)
    requires forall i | 0 <= i < |cs| :: Gathered(cs[i])
    ensures ParsePayload(Print(PayloadJson(cs))) == cs
  {
    hide *;
    PayloadRoundTrip(cs);
    AllGatheredSurvive(cs);
  }

  /** A list comes back as it was exactly when each of its candidates does. */
  lemma {:induction false} SurvivesUnchanged(cs: seq<Candidate>)
    ensures Survivors(cs) == cs <==> forall i | 0 <= i < |cs| :: Intact(cs[i])
    decreases cs
  {
    if cs != [] {
      hide Survivor;
      SurvivesUnchanged(cs[1..]);
      NoMoreSurvivors(cs[1..]);
      assert cs == [cs[0]] + cs[1..];
      assert forall i | 1 <= i < |cs| :: cs[i] == cs[1..][i - 1];
      assert forall i | 0 <= i < |cs| - 1 :: cs[1..][i] == cs[i + 1];
    }
  }

  /** What must hold of a candidate: clean strings, an address and a port, and no type that passes for the key `port`. */
  predicate Intact(c: Candidate) {
    Clean(c.kind) == c.kind && Clean(c.address) == c.address && Usable(c) && PortFound(c)
  }

  lemma {:induction false} NoMoreSurvivors(cs: seq<Candidate>)
    ensures |Survivors(cs)| <= |cs|
    decreases cs
  {
    if cs != [] {
      NoMoreSurvivors(cs[1..]);
    }
  }

  /** A list that does not: a candidate of type `port` is dropped. */
  lemma HiddenPortIsLost(address: string, port: uint16)
    ensures ParsePayload(Print(PayloadJson([Candidate("port", address, port)]))) == []
  {
    var c := Candidate("port", address, port);
    PayloadRoundTrip([c]);
    assert [c][1..] == [] && !PortFound(c);
    hide ParsePayload, Print, PayloadJson;
  }

  // ----- The loops -----

  /** What is still to be printed when the first `i` candidates have been. */
  ghost function Unprinted(cs: seq<Candidate>, i: nat): string
    requires i <= |cs|
  {
    (if 0 < i < |cs| then "," else "") + (PrintItems(CandidateItems(cs)[i..]) + "]}")
  }

  lemma UnprintedStep(cs: seq<Candidate>, i: nat)
    requires i < |cs|
    ensures Unprinted(cs, i) == ((if i > 0 then "," else "") + ObjectText(cs[i])) + Unprinted(cs, i + 1)
  {
    var items := CandidateItems(cs);
    var rest := items[i..];
    assert rest[0] == CandidateJson(cs[i]) && rest[1..] == items[i + 1..];
    hide Print;
    if i + 1 == |cs| {
      assert PrintItems(rest) == ObjectText(cs[i]);
      assert PrintItems(items[i + 1..]) == [];
    } else {
      assert PrintItems(rest) == ObjectText(cs[i]) + "," + PrintItems(items[i + 1..]);
    }
  }

  lemma UnprintedEnds(cs: seq<Candidate>)
    ensures Unprinted(cs, |cs|) == "]}"
    ensures Unprinted(cs, 0) == PrintItems(CandidateItems(cs)) + "]}"
  {
    var items := CandidateItems(cs);
    assert items[|cs|..] == [] && items[0..] == items;
    hide PrintItems;
    assert PrintItems([]) == [];
  }

  lemma ObjectTextIs(c: Candidate)
    ensures ObjectText(c) == "{" + Needle("type") + ":" + Quote(c.kind) + "," + Needle("address") + ":" + Quote(c.address)
                             + "," + Needle("port") + ":" + Decimal(c.port) + "}"
  {
    ObjectKeys();
    TextVisible(c.kind);
    TextVisible(c.address);
    NumberFieldIs("port", c.port);
    hide Needle, Quote, Decimal, IsKey, Print, Visible;
    PrintThree(TextField("type", c.kind), TextField("address", c.address), NumberField("port", c.port));
  }

  /** One candidate of the list. */
  method PrintCandidate(c: Candidate) returns (text: string)
    ensures text == ObjectText(c)
  {
    hide ObjectText, Escape, Needle, Decimal;
    ObjectTextIs(c);
    var kind := EscapeJson(c.kind);
    var address := EscapeJson(c.address);
    text := "{" + Needle("type") + ":" + ([QUOTE] + kind + [QUOTE]);
    text := text + "," + Needle("address") + ":" + ([QUOTE] + address + [QUOTE]);
    text := text + "," + Needle("port") + ":" + Decimal(c.port) + "}";
  }

  lemma PayloadTextIs(cs: seq<Candidate>)
    ensures Print(PayloadJson(cs)) == "{" + Needle("version") + ":1," + Needle("transport") + ":" + Needle("udp") + ","
                                      + Needle("candidates") + ":[" + (PrintItems(CandidateItems(cs)) + "]}")
  {
    PayloadKeys();
    var items := CandidateItems(cs);
    EscapeOfPlain("udp");
    assert Print(Arr(items)) == "[" + PrintItems(items) + "]" && Print(Str("udp")) == Needle("udp") && Print(Bare("1")) == "1";
    hide Needle, PrintItems, IsKey, Scalar, Print;
    PrintThree(Field("version", Bare("1")), TextField("transport", "udp"), Field("candidates", Arr(items)));
    Assembled(Needle("version"), Needle("transport"), Needle("udp"), Needle("candidates"), PrintItems(items));
  }

  lemma Assembled(k1: string, k2: string, v2: string, k3: string, inner: string)
    ensures "{" + k1 + ":" + "1" + "," + k2 + ":" + v2 + "," + k3 + ":" + ("[" + inner + "]") + "}"
         == "{" + k1 + ":1," + k2 + ":" + v2 + "," + k3 + ":[" + (inner + "]}")
  {
  }

  /** makeLocalPayloadJson. */
  method MakeLocalPayloadJson(localCandidates: seq<Candidate>) returns (out: string)
    ensures out == Print(PayloadJson(localCandidates))
  {
    hide *;
    ghost var total := Print(PayloadJson(localCandidates));
    PayloadTextIs(localCandidates);
    UnprintedEnds(localCandidates);
    out := "{" + Needle("version") + ":1," + Needle("transport") + ":" + Needle("udp") + ",";
    out := out + Needle("candidates") + ":[";
    for i := 0 to |localCandidates|
      invariant total == out + Unprinted(localCandidates, i)
    {
      UnprintedStep(localCandidates, i);
      if i != 0 {
        out := out + ",";
      }
      var text := PrintCandidate(localCandidates[i]);
      out := out + text;
    }
    out := out + "]}";
  }

  /** The body of the loop over the split objects. */
  method ReadCandidate(text: string) returns (candidate: Candidate)
    ensures candidate == ParseCandidate(text)
  {
    var kind := ExtractJsonString(text, "type");
    var address := ExtractJsonString(text, "address");
    var port := ExtractJsonNumber(text, "port");
    hide StringValue, NumberValue;
    candidate := Candidate(
      OrElse(kind, "host"),
      OrElse(address, ""),
      Clamp(match port { case None => 0 case Some(n) => n }, 0, 0xffff));
  }

  /** parseCandidates. */
  method ParseCandidates(payloadJson: string) returns (candidates: seq<Candidate>)
    ensures candidates == ParsePayload(payloadJson)
  {
    candidates := [];
    var candidatesJson := ExtractBalancedValue(payloadJson, "candidates", '[', ']');
    if candidatesJson.None? {
      return;
    }
    var objects := SplitObjectArray(candidatesJson.value);
    candidates := ReadObjects(objects);
  }

  lemma ParseObjectsStep(objects: seq<string>, i: nat)
    requires i < |objects|
    ensures var c := ParseCandidate(objects[i]);
            ParseObjects(objects[i..]) == (if Usable(c) then [c] else []) + ParseObjects(objects[i + 1..])
  {
    hide ParseCandidate;
    assert objects[i..][1..] == objects[i + 1..];
  }

  lemma ParseObjectsEnds(objects: seq<string>)
    ensures ParseObjects(objects[|objects|..]) == [] && objects[0..] == objects
  {
  }

  method ReadObjects(objects: seq<string>) returns (candidates: seq<Candidate>)
    ensures candidates == ParseObjects(objects)
  {
    hide ParseCandidate, ParseObjects;
    candidates := [];
    ParseObjectsEnds(objects);
    for i := 0 to |objects|
      invariant ParseObjects(objects) == candidates + ParseObjects(objects[i..])
    {
      ParseObjectsStep(objects, i);
      var candidate := ReadCandidate(objects[i]);
      if candidate.address != "" && candidate.port != 0 {
        candidates := candidates + [candidate];
      }
    }
  }
}
