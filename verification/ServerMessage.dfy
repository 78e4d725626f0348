/**
 * A message from the coordinator on its way to a client: the text the coordinator writes, and what the client's
 * key searches read from it. The text is faithful to the message except in one place: the member list of a room
 * is lost when the room's name or its host's nick passes for the key `peers`.
 *
 * Room lists and error texts, which no client's picture of its room depends on, are not part of this model.
 */
module ServerMessage {
  import opened Common
  import opened JsonText
  import opened JsonScan
  import opened JsonFields
  import opened GoJson
  import opened Coordinator
  import RelayFrame

  // ----- What the coordinator writes -----

  function TypeName(kind: Kind): (name: string)
    ensures !kind.Other? ==> |name| == 5 || |name| > 7
  {
    match kind
    case Hello => "hello"
    case ListRooms => "list_rooms"
    case CreateRoom => "create_room"
    case JoinRoom => "join_room"
    case LeaveRoom => "leave_room"
    case IceOffer => "ice_offer"
    case IceAnswer => "ice_answer"
    case IceCandidate => "ice_candidate"
    case MuteStatus => "mute_status"
    case PeerStatus => "peer_status"
    case VoiceFrame => "voice_frame"
    case Heartbeat => "heartbeat"
    case Rooms => "rooms"
    case RoomCreated => "room_created"
    case JoinedRoom => "joined_room"
    case PeerJoined => "peer_joined"
    case PeerLeft => "peer_left"
    case RoomClosed => "room_closed"
    case HeartbeatAck => "heartbeat_ack"
    case Error => "error"
    case Other(name) => name
  }

  function Text(key: string, value: string): Field {
    Field(key, Raw(GoEscape(value)))
  }

  function Flag(key: string, value: bool): Field {
    Field(key, JsonScan.Bare(if value then "true" else "false"))
  }

  /** Empty fields are left out. */
  function Given(key: string, value: string): seq<Field> {
    if value == "" then [] else [Text(key, value)]
  }

  function IdItems(ids: seq<PeerId>): (items: seq<Json>)
    ensures |items| == |ids|
    ensures forall i | 0 <= i < |ids| :: items[i] == Raw(GoEscape(ids[i]))
  {
    if ids == [] then [] else [Raw(GoEscape(ids[0]))] + IdItems(ids[1..])
  }

  function Names(s: Snapshot): seq<Field> {
    [Text("id", s.id), Text("name", s.name), Text("hostPeerId", s.hostId), Text("hostNick", s.hostNick)]
  }

  function Counts(s: Snapshot, createdMs: nat): seq<Field> {
    [NumberField("peerCount", s.peerCount), NumberField("maxPeers", MAX_PEERS), Flag("locked", s.locked),
     Flag("lanOnly", false), NumberField("createdAtUnixMs", createdMs)]
  }

  function Listed(ids: seq<PeerId>): seq<Field> {
    if ids == [] then [] else [Field("peers", Arr(IdItems(ids)))]
  }

  /** The members are written in no particular order; `ids` is the one they happen to be in. */
  function RoomJson(s: Snapshot, ids: seq<PeerId>, createdMs: nat): Json {
    Obj(Names(s) + (Counts(s, createdMs) + Listed(ids)))
  }

  function Heading(env: Envelope): seq<Field> {
    [Text("type", TypeName(env.kind))] + Given("roomId", env.roomId)
  }

  /** A payload is passed on as the text it is. */
  function Payload(env: Envelope): seq<Field> {
    if env.payload == "" then [] else [Field("payload", JsonScan.Bare(env.payload))]
  }

  /** When the room was made and the message was sent. */
  datatype Times = Times(createdMs: nat, sentMs: nat)

  function Body(env: Envelope, ids: seq<PeerId>, at: Times): seq<Field> {
    (if env.room.Some? then [Field("room", RoomJson(env.room.value, ids, at.createdMs))] else [])
    + (Payload(env) + [NumberField("sentAt", at.sentMs)])
  }

  function Written(env: Envelope, ids: seq<PeerId>, at: Times): string {
    Print(Obj(Heading(env) + (Given("peerId", env.peerId)
                              + (Given("targetPeerId", env.targetId) + (Given("nick", env.nick) + Body(env, ids, at))))))
  }

  // ----- What a client reads -----

  datatype Notice =
    | Members(ids: seq<PeerId>)
    | Status(id: PeerId)
    | Joined(id: PeerId)
    | Gone(id: PeerId)
    | Signal(id: PeerId, kind: Kind, payload: string)
    | Voice(id: PeerId, frame: RelayFrame.Frame)
    | Closed
    | Nothing

  function StringIn(text: string, key: string): string {
    OrElse(StringValue(text, key), "")
  }

  function PayloadIn(text: string): string {
    OrElse(BalancedValue(text, "payload", '{', '}'), "{}")
  }

  function MembersIn(text: string): Notice {
    match BalancedValue(text, "room", '{', '}')
    case None => Nothing
    case Some(room) => Members(StringArray(room, "peers"))
  }

  function VoiceIn(text: string): Notice {
    var frame := RelayFrame.Read(PayloadIn(text));
    if StringIn(text, "peerId") == "" || frame.payload == [] then Nothing
    else Voice(StringIn(text, "peerId"), frame)
  }

  /** The types a client tells apart. */
  function KindNamed(name: string): Kind {
    if name == "joined_room" then JoinedRoom
    else if name == "peer_status" then PeerStatus
    else if name == "peer_joined" then PeerJoined
    else if name == "peer_left" then PeerLeft
    else if name == "ice_offer" then IceOffer
    else if name == "ice_answer" then IceAnswer
    else if name == "ice_candidate" then IceCandidate
    else if name == "voice_frame" then VoiceFrame
    else if name == "room_closed" then RoomClosed
    else Other(name)
  }

  function Read(text: string): Notice {
    match KindNamed(StringIn(text, "type"))
    case JoinedRoom => MembersIn(text)
    case PeerStatus => Status(StringIn(text, "peerId"))
    case PeerJoined => Joined(StringIn(text, "peerId"))
    case PeerLeft => Gone(StringIn(text, "peerId"))
    case IceOffer => Signal(StringIn(text, "peerId"), IceOffer, PayloadIn(text))
    case IceAnswer => Signal(StringIn(text, "peerId"), IceAnswer, PayloadIn(text))
    case IceCandidate => Signal(StringIn(text, "peerId"), IceCandidate, PayloadIn(text))
    case VoiceFrame => VoiceIn(text)
    case RoomClosed => Closed
    case _ => Nothing
  }

  // ----- What the message means -----

  /** Neither the name of the room nor the nick of its host passes for the key of the member list. */
  predicate Readable(s: Snapshot) {
    !Hits(s.name, "peers") && !Hits(s.hostNick, "peers")
  }

  function Meant(env: Envelope, ids: seq<PeerId>): Notice {
    match env.kind
    case JoinedRoom => if env.room.None? then Nothing else Members(if Readable(env.room.value) then ids else [])
    case PeerStatus => Status(env.peerId)
    case PeerJoined => Joined(env.peerId)
    case PeerLeft => Gone(env.peerId)
    case IceOffer | IceAnswer | IceCandidate => Signal(env.peerId, env.kind, env.payload)
    case VoiceFrame =>
      if RelayFrame.Read(env.payload).payload == [] then Nothing else Voice(env.peerId, RelayFrame.Read(env.payload))
    case RoomClosed => Closed
    case _ => Nothing
  }

  // ----- Ids -----

  lemma IdIsSimple(id: string)
    requires IsPeerId(id) || IsRoomId(id)
    ensures Simple(id) && GoEscape(id) == id && Clean(id) == id
    ensures forall key | |key| < 21 :: !Hits(id, key)
  {
    forall i | 0 <= i < |id| ensures id[i] == '_' || 'a' <= id[i] <= 'z' || '0' <= id[i] <= '9' {
      if i < 5 {
        assert id[i] == id[..5][i];
      } else {
        assert id[i] == id[5..][i - 5];
      }
    }
    assert Simple(id);
    EscapedSimple(id);
    EscapeOfPlain(id);
    forall key | |key| < 21 ensures !Hits(id, key) {
      PlainHits(id, key);
    }
  }

  lemma {:induction false} IdsPrinted(ids: seq<PeerId>)
    requires forall id | id in ids :: IsPeerId(id)
    ensures PrintItems(IdItems(ids)) == PrintItems(StrItems(ids)) && Cleaned(ids) == ids
    decreases ids
  {
    hide Print, IsPeerId, Clean;
    if ids != [] {
      assert ids[0] in ids && ids == [ids[0]] + ids[1..];
      IdPrinted(ids[0]);
      IdsPrinted(ids[1..]);
      assert IdItems(ids)[1..] == IdItems(ids[1..]) && StrItems(ids)[1..] == StrItems(ids[1..]);
    }
  }

  lemma IdPrinted(id: PeerId)
    requires IsPeerId(id)
    ensures Print(Raw(GoEscape(id))) == Print(Str(id)) && Clean(id) == id
  {
    IdIsSimple(id);
    EscapeOfPlain(id);
  }

  // ----- Text fields in front of a key -----

  lemma TextIs(k: string, value: string, key: string)
    requires Simple(key) && PlainChars(k)
    ensures Scalar(Text(k, value)) && Visible(Text(k, value).value) && Print(Text(k, value).value)[0] == QUOTE
    ensures FieldHits(Text(k, value), key) <==> Hits(value, key)
  {
    HitsOfEscaped(value, key);
    assert ([QUOTE] + GoEscape(value) + [QUOTE])[0] == QUOTE;
  }

  lemma GivenPassed(k: string, value: string, key: string)
    requires Simple(key) && PlainChars(k) && k != key && !Hits(value, key)
    ensures Passed(Given(k, value), key)
  {
    TextIs(k, value, key);
    hide Text, Scalar, FieldHits;
    assert Text(k, value).key == k by {
      TextKey(k, value);
    }
  }

  lemma TextKey(k: string, value: string)
    ensures Text(k, value).key == k
  {
  }

  lemma PassedBoth(a: seq<Field>, b: seq<Field>, key: string)
    requires Passed(a, key) && Passed(b, key)
    ensures Passed(a + b, key)
  {
  }

  /** A text that needs no escaping is read back when everything in front of it is passed. */
  lemma TextRead(a: seq<Field>, key: string, value: string, b: seq<Field>)
    requires IsKey(key) && Passed(a, key) && Simple(value)
    ensures StringIn(Print(Obj(a + ([Text(key, value)] + b))), key) == value
  {
    EscapedSimple(value);
    EscapeOfPlain(value);
    TextIs(key, value, []);
    assert Print(Text(key, value).value) == Quote(value);
    hide Print, Passed, Value, Behind, StringValue, Visible, Simple, Escape, GoEscape, FieldHits, Scalar;
    FieldFound(a, Text(key, value), b);
    StringIs(Print(Obj(a + ([Text(key, value)] + b))), key, value, Behind(b));
  }

  /** Letters and underscores only. */
  predicate Word(s: string) {
    s != [] && forall i | 0 <= i < |s| :: 'a' <= s[i] <= 'z' || 'A' <= s[i] <= 'Z' || s[i] == '_'
  }

  lemma WordIs(s: string)
    requires Word(s)
    ensures IsKey(s) && Simple(s) && PlainChars(s)
  {
  }

  lemma RequestIsWord(kind: Kind)
    requires kind in {Hello, ListRooms, CreateRoom, JoinRoom, LeaveRoom, Heartbeat}
    ensures Word(TypeName(kind))
  {
  }

  lemma RelayedIsWord(kind: Kind)
    requires kind in {IceOffer, IceAnswer, IceCandidate, MuteStatus, PeerStatus, VoiceFrame}
    ensures Word(TypeName(kind))
  {
  }

  lemma AnswerIsWord(kind: Kind)
    requires kind in {Rooms, RoomCreated, JoinedRoom, PeerJoined, PeerLeft, RoomClosed, HeartbeatAck, Error}
    ensures Word(TypeName(kind))
  {
  }

  lemma TypeIsWord(kind: Kind)
    requires !kind.Other?
    ensures Word(TypeName(kind))
  {
    hide TypeName, Word;
    match kind
    case Hello | ListRooms | CreateRoom | JoinRoom | LeaveRoom | Heartbeat => RequestIsWord(kind);
    case IceOffer | IceAnswer | IceCandidate | MuteStatus | PeerStatus | VoiceFrame => RelayedIsWord(kind);
    case _ => AnswerIsWord(kind);
  }

  /** The types the client knows are none of the keys it looks for. */
  lemma TypeHits(kind: Kind, key: string)
    requires !kind.Other? && (|key| == 4 || |key| == 6 || |key| == 7)
    ensures Simple(TypeName(kind)) && !Hits(TypeName(kind), key)
  {
    TypeIsWord(kind);
    WordIs(TypeName(kind));
    PlainHits(TypeName(kind), key);
    hide TypeName, Word, Simple, PlainChars, EndsQuoted;
  }

  lemma TypeReadBack(env: Envelope, ids: seq<PeerId>, at: Times)
    requires !env.kind.Other?
    ensures StringIn(Written(env, ids, at), "type") == TypeName(env.kind)
  {
    assert Word("type");
    WordIs("type");
    TypeHits(env.kind, "room");
    var rest := Given("peerId", env.peerId)
              + (Given("targetPeerId", env.targetId) + (Given("nick", env.nick) + Body(env, ids, at)));
    var type_ := [Text("type", TypeName(env.kind))];
    assert Heading(env) + rest == [] + (type_ + (Given("roomId", env.roomId) + rest));
    hide IsKey, Simple, Body, Given, Text, StringIn, Print, TypeName;
    TextRead([], "type", TypeName(env.kind), Given("roomId", env.roomId) + rest);
  }

  /** The room of an envelope, when it names one. */
  predicate RoomGiven(env: Envelope) {
    env.roomId == "" || IsRoomId(env.roomId)
  }

  lemma HeadingPassed(env: Envelope, key: string)
    requires !env.kind.Other? && RoomGiven(env) && Word(key) && (key == "peerId" || key == "room" || key == "payload")
    ensures Passed(Heading(env), key)
  {
    assert Word("type") && Word("roomId");
    WordIs("type");
    WordIs("roomId");
    WordIs(key);
    TypeHits(env.kind, key);
    hide Word, Simple, TypeName, IsKey, Hits, IsRoomId;
    TextIs("type", TypeName(env.kind), key);
    RoomIdHits(env, key);
    GivenPassed("roomId", env.roomId, key);
    TextKey("type", TypeName(env.kind));
    hide Given, Text, Scalar, FieldHits;
    assert Passed([Text("type", TypeName(env.kind))], key);
    PassedBoth([Text("type", TypeName(env.kind))], Given("roomId", env.roomId), key);
  }

  lemma RoomIdHits(env: Envelope, key: string)
    requires RoomGiven(env) && 0 < |key| < 21
    ensures !Hits(env.roomId, key)
  {
    if env.roomId == "" {
      PlainHits("", key);
    } else {
      IdIsSimple(env.roomId);
    }
  }

  lemma PeerIdReadBack(env: Envelope, ids: seq<PeerId>, at: Times)
    requires !env.kind.Other? && RoomGiven(env) && IsPeerId(env.peerId)
    ensures StringIn(Written(env, ids, at), "peerId") == env.peerId
  {
    assert Word("peerId");
    WordIs("peerId");
    HeadingPassed(env, "peerId");
    IdIsSimple(env.peerId);
    hide IsKey, Simple, Body, Text, StringIn, Print, Heading, Passed, Word;
    TextRead(Heading(env), "peerId", env.peerId,
             Given("targetPeerId", env.targetId) + (Given("nick", env.nick) + Body(env, ids, at)));
  }

  // ----- The payload -----

  /** A payload as clients print them: an object. */
  ghost predicate ObjectPayload(payload: string) {
    exists fields :: Printable(Obj(fields)) && payload == Print(Obj(fields))
  }

  /** The message addresses nobody, or a client. */
  predicate TargetGiven(env: Envelope) {
    env.targetId == "" || IsPeerId(env.targetId)
  }

  lemma TargetHits(env: Envelope, key: string)
    requires TargetGiven(env) && 0 < |key| < 21
    ensures !Hits(env.targetId, key)
  {
    if env.targetId == "" {
      PlainHits("", key);
    } else {
      IdIsSimple(env.targetId);
    }
  }

  /** Everything in front of the nick. */
  function Ids(env: Envelope): seq<Field> {
    Heading(env) + (Given("peerId", env.peerId) + Given("targetPeerId", env.targetId))
  }

  lemma IdsPassed(env: Envelope)
    requires !env.kind.Other? && RoomGiven(env) && IsPeerId(env.peerId) && TargetGiven(env)
    ensures Passed(Ids(env), "payload")
  {
    assert Word("payload") && Word("peerId") && Word("targetPeerId");
    WordIs("payload");
    WordIs("peerId");
    WordIs("targetPeerId");
    HeadingPassed(env, "payload");
    IdIsSimple(env.peerId);
    TargetHits(env, "payload");
    hide IsKey, Simple, Hits, Heading, Passed, Word, Given;
    GivenPassed("peerId", env.peerId, "payload");
    GivenPassed("targetPeerId", env.targetId, "payload");
    PassedBoth(Given("peerId", env.peerId), Given("targetPeerId", env.targetId), "payload");
    PassedBoth(Heading(env), Given("peerId", env.peerId) + Given("targetPeerId", env.targetId), "payload");
  }

  /** The message from its nick on, when it carries a payload and no room. */
  lemma WrittenFromNick(env: Envelope, ids: seq<PeerId>, at: Times)
    requires env.room.None? && env.payload != ""
    ensures Written(env, ids, at)
         == Print(Obj(Ids(env) + (Given("nick", env.nick)
                                  + ([Field("payload", JsonScan.Bare(env.payload))] + [NumberField("sentAt", at.sentMs)]))))
  {
    var nick, payload, sent := Given("nick", env.nick), [Field("payload", JsonScan.Bare(env.payload))], [NumberField("sentAt", at.sentMs)];
    var peer, target := Given("peerId", env.peerId), Given("targetPeerId", env.targetId);
    assert Body(env, ids, at) == payload + sent;
    hide Heading, Given, Print;
    NickLast(Heading(env), peer, target, nick + (payload + sent));
  }

  lemma NickLast(a: seq<Field>, b: seq<Field>, c: seq<Field>, d: seq<Field>)
    ensures a + (b + (c + d)) == (a + (b + c)) + d
  {
  }

  /** A nick that passes for the key `payload` does no harm: the search lands on the comma right in front of it. */
  lemma PayloadFound(env: Envelope, ids: seq<PeerId>, at: Times)
    requires !env.kind.Other? && RoomGiven(env) && IsPeerId(env.peerId) && TargetGiven(env) && env.room.None?
    requires env.payload != "" && !IsSpace(env.payload[0])
    ensures Value(Written(env, ids, at), "payload") == Some(env.payload + Behind([NumberField("sentAt", at.sentMs)]))
  {
    var nick, payload, sent := Text("nick", env.nick), Field("payload", JsonScan.Bare(env.payload)), [NumberField("sentAt", at.sentMs)];
    assert Word("payload") && Word("nick");
    WordIs("payload");
    WordIs("nick");
    WrittenFromNick(env, ids, at);
    IdsPassed(env);
    TextIs("nick", env.nick, "payload");
    TextKey("nick", env.nick);
    assert Visible(payload.value) && Print(payload.value) == env.payload;
    hide IsKey, Simple, Passed, Word, Ids, Text, Hits, Print, Written, Value, FieldHits, Scalar, Behind, Visible;
    if env.nick == "" {
      assert Given("nick", env.nick) + ([payload] + sent) == [payload] + sent;
      FieldFound(Ids(env), payload, sent);
    } else if FieldHits(nick, "payload") {
      assert Given("nick", env.nick) + ([payload] + sent) == [nick, payload] + sent;
      NextFieldFound(Ids(env), nick, payload, sent, "payload");
    } else {
      assert Ids(env) + (Given("nick", env.nick) + ([payload] + sent)) == (Ids(env) + [nick]) + ([payload] + sent);
      OnePassed(nick, "payload");
      PassedBoth(Ids(env), [nick], "payload");
      FieldFound(Ids(env) + [nick], payload, sent);
    }
  }

  lemma OnePassed(f: Field, key: string)
    requires Scalar(f) && f.key != key && !FieldHits(f, key)
    ensures Passed([f], key)
  {
  }

  /** Whatever the sender's nick, the payload arrives. */
  lemma PayloadReadBack(env: Envelope, ids: seq<PeerId>, at: Times)
    requires !env.kind.Other? && RoomGiven(env) && IsPeerId(env.peerId) && TargetGiven(env) && env.room.None?
    requires ObjectPayload(env.payload)
    ensures PayloadIn(Written(env, ids, at)) == env.payload
  {
    var fields :| Printable(Obj(fields)) && env.payload == Print(Obj(fields));
    assert env.payload[0] == '{';
    PayloadFound(env, ids, at);
    hide Written, Value, Behind, Print;
    BalancedValueOf(Written(env, ids, at), "payload", Obj(fields), Behind([NumberField("sentAt", at.sentMs)]));
  }

  // ----- The members -----

  lemma NumberPassed(k: string, n: nat, key: string)
    requires PlainChars(k) && k != key
    ensures Scalar(NumberField(k, n)) && NumberField(k, n).key != key && !FieldHits(NumberField(k, n), key)
    ensures Printable(NumberField(k, n).value)
  {
    NumberFieldIs(k, n);
  }

  lemma FlagPassed(k: string, b: bool, key: string)
    requires PlainChars(k) && k != key
    ensures Scalar(Flag(k, b)) && Flag(k, b).key != key && !FieldHits(Flag(k, b), key)
    ensures Printable(Flag(k, b).value)
  {
  }

  lemma CountKeys()
    ensures Word("peerCount") && Word("maxPeers") && Word("locked") && Word("lanOnly") && Word("createdAtUnixMs")
  {
  }

  lemma CountsPassed(s: Snapshot, createdMs: nat)
    ensures Passed(Counts(s, createdMs), "peers")
    ensures forall i | 0 <= i < 5 :: Printable(Counts(s, createdMs)[i].value)
  {
    CountKeys();
    WordIs("peerCount");
    WordIs("maxPeers");
    WordIs("locked");
    WordIs("lanOnly");
    WordIs("createdAtUnixMs");
    hide Word, IsKey, Simple, PlainChars, FieldHits, Scalar, Printable;
    NumberPassed("peerCount", s.peerCount, "peers");
    NumberPassed("maxPeers", MAX_PEERS, "peers");
    FlagPassed("locked", s.locked, "peers");
    FlagPassed("lanOnly", false, "peers");
    NumberPassed("createdAtUnixMs", createdMs, "peers");
  }

  lemma NamesPrintable(s: Snapshot)
    ensures forall i | 0 <= i < 4 :: Printable(Names(s)[i].value)
  {
    assert Word("peers");
    WordIs("peers");
    HitsOfEscaped(s.id, "peers");
    HitsOfEscaped(s.name, "peers");
    HitsOfEscaped(s.hostId, "peers");
    HitsOfEscaped(s.hostNick, "peers");
    hide WellEscaped, GoEscape, Hits;
  }

  lemma IdsPrintable(ids: seq<PeerId>)
    ensures Printable(Arr(IdItems(ids)))
  {
    assert Word("peers");
    WordIs("peers");
    forall i | 0 <= i < |ids| ensures Printable(IdItems(ids)[i]) {
      HitsOfEscaped(ids[i], "peers");
    }
  }

  lemma RoomPrintable(s: Snapshot, ids: seq<PeerId>, createdMs: nat)
    ensures Printable(RoomJson(s, ids, createdMs))
  {
    NamesPrintable(s);
    CountsPassed(s, createdMs);
    IdsPrintable(ids);
    hide Names, Counts, IdItems, Passed;
    var fields := Names(s) + (Counts(s, createdMs) + Listed(ids));
    FourAndFive(s, createdMs);
    forall i | 0 <= i < |fields| ensures Printable(fields[i].value) {
      if i < 4 {
        assert fields[i] == Names(s)[i];
      } else if i < 9 {
        assert fields[i] == Counts(s, createdMs)[i - 4];
      } else {
        assert fields[i] == Listed(ids)[i - 9];
      }
    }
  }

  lemma FourAndFive(s: Snapshot, createdMs: nat)
    ensures |Names(s)| == 4 && |Counts(s, createdMs)| == 5
  {
  }

  /** A room as the coordinator describes it: under generated ids. */
  predicate Generated(s: Snapshot, ids: seq<PeerId>) {
    IsRoomId(s.id) && IsPeerId(s.hostId) && forall id | id in ids :: IsPeerId(id)
  }

  lemma NameKeys()
    ensures Word("id") && Word("name") && Word("hostPeerId") && Word("hostNick") && Word("peers")
  {
  }

  lemma IdPassed(k: string, id: string, key: string)
    requires Word(k) && Word(key) && k != key && |key| < 21 && (IsPeerId(id) || IsRoomId(id))
    ensures Passed([Text(k, id)], key)
  {
    WordIs(k);
    WordIs(key);
    IdIsSimple(id);
    TextIs(k, id, key);
    TextKey(k, id);
    hide Word, Simple, IsKey, IsPeerId, IsRoomId, Hits, FieldHits, Scalar, Text;
  }

  lemma NameHits(k: string, value: string, key: string)
    requires Word(k) && Word(key)
    ensures Scalar(Text(k, value)) && (FieldHits(Text(k, value), key) <==> Hits(value, key))
  {
    WordIs(k);
    WordIs(key);
    TextIs(k, value, key);
    hide Word, Simple, IsKey, Hits, FieldHits, Scalar, Text;
  }

  /** What of the four names can pass for the key. */
  lemma NamesHits(s: Snapshot)
    requires IsRoomId(s.id) && IsPeerId(s.hostId)
    ensures Passed([Text("id", s.id)], "peers") && Passed([Text("hostPeerId", s.hostId)], "peers")
    ensures Scalar(Text("name", s.name)) && (FieldHits(Text("name", s.name), "peers") <==> Hits(s.name, "peers"))
    ensures Scalar(Text("hostNick", s.hostNick)) && (FieldHits(Text("hostNick", s.hostNick), "peers") <==> Hits(s.hostNick, "peers"))
  {
    NameKeys();
    hide *;
    IdPassed("id", s.id, "peers");
    IdPassed("hostPeerId", s.hostId, "peers");
    NameHits("name", s.name, "peers");
    NameHits("hostNick", s.hostNick, "peers");
  }

  lemma NamesPassed(s: Snapshot)
    requires IsRoomId(s.id) && IsPeerId(s.hostId)
    ensures Passed([Text("id", s.id)], "peers")
    ensures !Hits(s.name, "peers") ==> Passed(Names(s)[..3], "peers")
    ensures Readable(s) ==> Passed(Names(s), "peers")
  {
    NamesHits(s);
    var id, name, host, nick := Text("id", s.id), Text("name", s.name), Text("hostPeerId", s.hostId), Text("hostNick", s.hostNick);
    assert name.key == "name" && nick.key == "hostNick";
    assert Names(s)[..3] == ([id] + [name]) + [host] && Names(s) == (([id] + [name]) + [host]) + [nick];
    hide Scalar, FieldHits, IsRoomId, IsPeerId, Hits, Passed, Text, Names;
    if !Hits(s.name, "peers") {
      OnePassed(name, "peers");
      PassedBoth([id], [name], "peers");
      PassedBoth([id] + [name], [host], "peers");
      if Readable(s) {
        OnePassed(nick, "peers");
        PassedBoth(([id] + [name]) + [host], [nick], "peers");
      }
    }
  }

  lemma FrontPassed(s: Snapshot, createdMs: nat)
    requires IsRoomId(s.id) && IsPeerId(s.hostId) && Readable(s)
    ensures Passed(Names(s) + Counts(s, createdMs), "peers") && |Names(s) + Counts(s, createdMs)| == 9
    ensures IsKey("peers")
  {
    NameKeys();
    FourAndFive(s, createdMs);
    hide *;
    WordIs("peers");
    NamesPassed(s);
    CountsPassed(s, createdMs);
    PassedBoth(Names(s), Counts(s, createdMs), "peers");
  }

  lemma RoomShape(s: Snapshot, ids: seq<PeerId>, createdMs: nat)
    ensures RoomJson(s, ids, createdMs) == Obj((Names(s) + Counts(s, createdMs)) + Listed(ids))
    ensures Listed([]) == [] && (ids != [] ==> Listed(ids) == [Field("peers", Arr(IdItems(ids)))])
  {
    hide Names, Counts, IdItems;
    assert Names(s) + (Counts(s, createdMs) + Listed(ids)) == (Names(s) + Counts(s, createdMs)) + Listed(ids);
  }

  lemma SomebodyFound(s: Snapshot, ids: seq<PeerId>, createdMs: nat)
    requires Generated(s, ids) && Readable(s) && ids != []
    ensures StringArray(Print(RoomJson(s, ids, createdMs)), "peers") == ids
  {
    hide Readable, IsRoomId, IsPeerId, IsKey, RoomJson, Names, Counts, Listed, PrintItems, Value, StringArray, Passed, Printable, Behind;
    FrontPassed(s, createdMs);
    RoomShape(s, ids, createdMs);
    IdsPrinted(ids);
    var front := Names(s) + Counts(s, createdMs);
    var peers := Field("peers", Arr(IdItems(ids)));
    assert Print(peers.value) == Print(Arr(StrItems(ids))) && Print(peers.value)[0] == '[';
    assert [peers] + [] == [peers];
    FieldFound(front, peers, []);
    StringArrayUndoesPrint(Print(RoomJson(s, ids, createdMs)), "peers", ids, Behind([]));
  }

  lemma NobodyFound(s: Snapshot, createdMs: nat)
    requires Generated(s, []) && Readable(s)
    ensures StringArray(Print(RoomJson(s, [], createdMs)), "peers") == []
  {
    hide Readable, IsRoomId, IsPeerId, RoomJson, Names, Counts, Listed, Print, Value, StringArray, Passed;
    FrontPassed(s, createdMs);
    RoomShape(s, [], createdMs);
    var front := Names(s) + Counts(s, createdMs);
    SomePassed(front, "peers");
    assert front + [] == front[..8] + [front[8]];
    FieldAbsent(front[..8], front[8], "peers");
    NoArray(Print(RoomJson(s, [], createdMs)), "peers");
  }

  lemma SomePassed(fields: seq<Field>, key: string)
    requires Passed(fields, key)
    ensures forall i | 0 <= i <= |fields| :: Passed(fields[..i], key)
    ensures forall i | 0 <= i < |fields| :: Passed([fields[i]], key)
  {
  }

  lemma AroundName(four: seq<Field>, rest: seq<Field>)
    requires |four| == 4
    ensures four + rest == [four[0]] + ([four[1], four[2]] + ([four[3]] + rest))
  {
  }

  lemma AroundNick(four: seq<Field>, five: seq<Field>, rest: seq<Field>)
    requires |four| == 4 && |five| == 5
    ensures four + (five + rest) == four[..3] + ([four[3], five[0]] + (five[1..] + rest))
  {
  }

  lemma LostBehindName(s: Snapshot, ids: seq<PeerId>, createdMs: nat)
    requires IsRoomId(s.id) && IsPeerId(s.hostId) && Hits(s.name, "peers")
    ensures StringArray(Print(RoomJson(s, ids, createdMs)), "peers") == []
  {
    NameKeys();
    WordIs("peers");
    WordIs("hostPeerId");
    NamesHits(s);
    NamesPassed(s);
    TextIs("hostPeerId", s.hostId, "peers");
    var json := Print(RoomJson(s, ids, createdMs));
    var id, name, host, nick := Names(s)[0], Names(s)[1], Names(s)[2], Names(s)[3];
    assert name.key == "name" && host.key == "hostPeerId";
    var rest := [nick] + (Counts(s, createdMs) + Listed(ids));
    hide *;
    AroundName(Names(s), Counts(s, createdMs) + Listed(ids));
    NextFieldFound([id], name, host, rest, "peers");
    NotAnArray(json, "peers", Print(host.value), Behind(rest));
  }

  lemma LostBehindNick(s: Snapshot, ids: seq<PeerId>, createdMs: nat)
    requires IsRoomId(s.id) && IsPeerId(s.hostId) && !Hits(s.name, "peers") && Hits(s.hostNick, "peers")
    ensures StringArray(Print(RoomJson(s, ids, createdMs)), "peers") == []
  {
    NameKeys();
    WordIs("peers");
    CountKeys();
    WordIs("peerCount");
    NamesHits(s);
    NamesPassed(s);
    NumberFieldIs("peerCount", s.peerCount);
    assert Decimal(s.peerCount)[0] in Decimal(s.peerCount);
    var json := Print(RoomJson(s, ids, createdMs));
    var nick, count := Names(s)[3], Counts(s, createdMs)[0];
    assert nick.key == "hostNick" && count.key == "peerCount";
    var rest := Counts(s, createdMs)[1..] + Listed(ids);
    hide *;
    AroundNick(Names(s), Counts(s, createdMs), Listed(ids));
    NextFieldFound(Names(s)[..3], nick, count, rest, "peers");
    NotAnArray(json, "peers", Decimal(s.peerCount), Behind(rest));
  }

  lemma NotAnArray(json: string, key: string, value: string, rest: string)
    requires Value(json, key) == Some(value + rest) && value != [] && value[0] != '['
    ensures StringArray(json, key) == []
  {
    hide Value, StringArray;
    NoArray(json, key);
  }

  /** The member ids are read back exactly unless the name of the room or the nick of its host passes for the key. */
  lemma MembersReadBack(s: Snapshot, ids: seq<PeerId>, createdMs: nat)
    requires Generated(s, ids)
    ensures StringArray(Print(RoomJson(s, ids, createdMs)), "peers") == if Readable(s) then ids else []
    ensures ids != [] ==> (StringArray(Print(RoomJson(s, ids, createdMs)), "peers") == ids <==> Readable(s))
  {
    hide StringArray, RoomJson, Print, Hits;
    if Readable(s) {
      if ids == [] {
        NobodyFound(s, createdMs);
      } else {
        SomebodyFound(s, ids, createdMs);
      }
    } else if Hits(s.name, "peers") {
      LostBehindName(s, ids, createdMs);
    } else {
      LostBehindNick(s, ids, createdMs);
    }
  }

  /** A host that calls itself `peers`, or a nick that ends in a quoted `peers`, hides everybody. */
  lemma NickHidesMembers(nick: string, s: Snapshot, ids: seq<PeerId>, createdMs: nat)
    requires Generated(s, ids) && (s.hostNick == "peers" || s.hostNick == nick + "\"peers")
    ensures StringArray(Print(RoomJson(s, ids, createdMs)), "peers") == []
  {
    hide StringArray, RoomJson, Print;
    EndsBehind(nick, "peers");
    assert "\"peers" == [QUOTE] + "peers";
    MembersReadBack(s, ids, createdMs);
  }

  lemma {:induction false} EndsBehind(nick: string, key: string)
    ensures EndsQuoted(nick + ([QUOTE] + key), key)
    decreases nick
  {
    if nick == [] {
      assert nick + ([QUOTE] + key) == [QUOTE] + key && ([QUOTE] + key)[1..] == key;
    } else {
      EndsBehind(nick[1..], key);
      assert nick + ([QUOTE] + key) != [];
      assert (nick + ([QUOTE] + key))[1..] == nick[1..] + ([QUOTE] + key);
    }
  }

  // ----- The whole message -----

  predicate Noticed(kind: Kind) {
    kind == JoinedRoom || kind == PeerStatus || kind == PeerJoined || kind == PeerLeft || IsIce(kind)
    || kind == VoiceFrame || kind == RoomClosed
  }

  lemma RelayedNamed(kind: Kind)
    requires IsIce(kind) || kind == PeerStatus || kind == VoiceFrame
    ensures KindNamed(TypeName(kind)) == kind
  {
  }

  lemma NoticedNamed(kind: Kind)
    requires Noticed(kind)
    ensures KindNamed(TypeName(kind)) == kind
  {
    if IsIce(kind) || kind == PeerStatus || kind == VoiceFrame {
      hide KindNamed, TypeName;
      RelayedNamed(kind);
    }
  }

  lemma OthersNamed(kind: Kind)
    requires !Noticed(kind) && !kind.Other?
    ensures KindNamed(TypeName(kind)).Other?
  {
  }

  /** A message as the coordinator posts it. */
  predicate Posted(env: Envelope) {
    match env.kind
    case JoinedRoom =>
      && env == Coordinator.Bare(JoinedRoom).(roomId := env.roomId, room := env.room) && env.room.Some?
      && IsRoomId(env.roomId) && env.room.value.id == env.roomId && IsPeerId(env.room.value.hostId)
      && forall id | id in env.room.value.peers :: IsPeerId(id)
    case PeerStatus | PeerJoined | PeerLeft | IceOffer | IceAnswer | IceCandidate | VoiceFrame =>
      RoomGiven(env) && IsPeerId(env.peerId)
    case Other(_) => false
    case _ => true
  }

  /** A signal or a frame as clients send it. */
  ghost predicate Sent(env: Envelope) {
    IsIce(env.kind) || env.kind == VoiceFrame ==> TargetGiven(env) && env.room.None? && ObjectPayload(env.payload)
  }

  /** `ids` are the members that a joined_room message shows. */
  predicate Lists(ids: seq<PeerId>, env: Envelope) {
    env.kind == JoinedRoom && env.room.Some? ==> (set id | id in ids) == env.room.value.peers
  }

  /** A joined_room message has no fields but its heading, the room and the time. */
  lemma WelcomeShape(env: Envelope, ids: seq<PeerId>, at: Times)
    requires env.kind == JoinedRoom && Posted(env)
    ensures Written(env, ids, at)
         == Print(Obj(Heading(env) + ([Field("room", RoomJson(env.room.value, ids, at.createdMs))]
                                      + [NumberField("sentAt", at.sentMs)])))
  {
    var room, sent := [Field("room", RoomJson(env.room.value, ids, at.createdMs))], [NumberField("sentAt", at.sentMs)];
    assert [] + ([] + ([] + (room + ([] + sent)))) == room + sent;
    hide Heading, Print, RoomJson;
  }

  /** The room of a joined_room message is found, and is the room that was written. */
  lemma RoomInMessage(env: Envelope, ids: seq<PeerId>, at: Times)
    requires env.kind == JoinedRoom && Posted(env) && RoomGiven(env)
    ensures BalancedValue(Written(env, ids, at), "room", '{', '}') == Some(Print(RoomJson(env.room.value, ids, at.createdMs)))
  {
    hide Word, Heading, Passed, Print, Value, BalancedValue, Printable, Behind, Written, IsPeerId, IsRoomId, Names, Counts, Listed;
    assert Word("room") by {
      RoomIsWord();
    }
    WordIs("room");
    HeadingPassed(env, "room");
    var room := RoomJson(env.room.value, ids, at.createdMs);
    var sent := [NumberField("sentAt", at.sentMs)];
    RoomPrintable(env.room.value, ids, at.createdMs);
    WelcomeShape(env, ids, at);
    ObjectVisible(room.fields);
    FieldFound(Heading(env), Field("room", room), sent);
    BalancedValueOf(Written(env, ids, at), "room", room, Behind(sent));
  }

  lemma RoomIsWord()
    ensures Word("room")
  {
  }

  lemma ObjectVisible(fields: seq<Field>)
    ensures Visible(Obj(fields))
  {
    assert Print(Obj(fields))[0] == '{';
  }

  lemma MembersMessage(env: Envelope, ids: seq<PeerId>, at: Times)
    requires env.kind == JoinedRoom && Posted(env) && Lists(ids, env)
    ensures MembersIn(Written(env, ids, at)) == Members(if Readable(env.room.value) then ids else [])
  {
    hide Print, RoomJson, BalancedValue, StringArray, Written, Readable, IsPeerId, IsRoomId;
    assert forall id | id in ids :: id in (set x | x in ids);
    RoomInMessage(env, ids, at);
    MembersReadBack(env.room.value, ids, at.createdMs);
  }

  /**
   * What a client reads from a message is what the message means, whatever nicks, room names and ids there are, but
   * for the member list of a room that is not readable, which comes out empty.
   */
  lemma ReadIsMeant(env: Envelope, ids: seq<PeerId>, at: Times)
    requires Posted(env) && Sent(env) && Lists(ids, env)
    ensures Read(Written(env, ids, at)) == Meant(env, ids)
  {
    hide KindNamed, TypeName, Written, StringIn, PayloadIn, MembersIn, Readable, IsPeerId, IsRoomId, ObjectPayload;
    TypeReadBack(env, ids, at);
    if Noticed(env.kind) {
      NoticedNamed(env.kind);
      if env.kind == JoinedRoom {
        MembersMessage(env, ids, at);
      } else if env.kind != RoomClosed {
        PeerIdReadBack(env, ids, at);
        if IsIce(env.kind) || env.kind == VoiceFrame {
          PayloadReadBack(env, ids, at);
        }
      }
    } else {
      OthersNamed(env.kind);
    }
  }

  // ----- The code -----

  /** The part of handleServerMessage that ends in an event for the application. */
  method HandleServerMessage(text: string) returns (n: Notice)
    ensures n == Read(text)
  {
    hide KindNamed, StringValue, BalancedValue, StringArray, RelayFrame.Read;
    var name := ExtractJsonString(text, "type");
    var kind := KindNamed(OrElse(name, ""));
    if kind == JoinedRoom {
      var room := ExtractBalancedValue(text, "room", '{', '}');
      if room.None? {
        return Nothing;
      }
      var ids := ParseStringArray(room.value, "peers");
      return Members(ids);
    }
    var peerId := ExtractJsonString(text, "peerId");
    var id := OrElse(peerId, "");
    match kind
    case PeerStatus => n := Status(id);
    case PeerJoined => n := Joined(id);
    case PeerLeft => n := Gone(id);
    case IceOffer | IceAnswer | IceCandidate =>
      var payload := ExtractBalancedValue(text, "payload", '{', '}');
      n := Signal(id, kind, OrElse(payload, "{}"));
    case VoiceFrame =>
      var payload := ExtractBalancedValue(text, "payload", '{', '}');
      var frame := RelayFrame.ReadFrame(OrElse(payload, "{}"));
      n := if id == "" || frame.payload == [] then Nothing else Voice(id, frame);
    case RoomClosed => n := Closed;
    case _ => n := Nothing;
  }
}
