# Tarkov Voice Overlay: a verified model

Tarkov Voice Overlay is a push-to-talk voice client (C++, `client/`) with a small room coordinator (Go,
`coordinator/main.go`). This project models the parts of both where something can go quietly wrong, and proves what
they are for. Run `dafny verify dfyconfig.toml` to check it.

**Wire formats.** `Adpcm` (the IMA quantiser of section 4.5.1 of RFC 3551 under the repository's own header),
`VoicePayload` (plain PCM and the receiver's choice of decoder), `Base64` (section 4 of RFC 4648, with the decoder's
signed 32-bit accumulator that is never masked), `BigEndian` and `Packet` (the UDP packet), `Stun` (the attribute walk
over a binding response, sections 15, 15.1 and 15.2 of RFC 5389).

**Hand-written JSON.** `JsonText` (escaping, first-occurrence key search, strings and numbers), `JsonScan` (bracket
counting outside strings, splitting arrays), `JsonFields` (which field of a printed object a key search finds), `GoJson`
(strings as the coordinator's JSON library escapes them), and what travels through them whole: `ServerMessage` (every
message of the coordinator that concerns a room), `Candidates` (addresses of the direct transport) and `RelayFrame` (a
voice frame relayed by the coordinator).

**Rooms.** `Coordinator` is the hub as a state machine on values, one locked operation a step; `Hub` is the hub's own
code on objects and pointer maps, proved to compute those steps; `HubSafety` and `Delivery` prove what holds on every
run; `Session` is the client's session and its message dispatcher, from the text of a message on; `Replica` runs
coordinator and client together; `Requests` says what each request is answered; `Handshake` is the offer and answer
exchange between any number of clients; `Client` joins dispatcher, transport and player.

**Voice.** `Capture` (framing), `Gate` (what is sent and under which number), `Playback` and `Sums` (the jitter queues
and the mix), `Mixer` (gain and limiting over the reals), and `VoicePath`, which puts sender, both channels and receiver
together.

What stands for the outside: ids come from `Connect` and `create_room` events that bring a fresh id, a prefix and 16
hexadecimal digits as the code makes them; clocks, received bytes, device buffers, the microphone level and the answers
of the Opus library are inputs. Clients are identified by their ids on the value side and by object on the heap side.
"Dropping message" log lines are a counter. `hello` changes a nick outside the hub's lock in the code; here it is one
step like the others.

Three claims one would like to make are false of the code; a run or an input shows each, and the exact condition is
proved instead.

- A client's room is on the room list. False after a lone member joined its own room again, and only then
  (`HubSafety.DanglingHappens`, `HubSafety.DanglingExactly`).
- A client that joins a room learns who is in it. The client finds the member list by its first quoted `peers`, and room
  name and host nick, free text both, are printed in front of it. False when one of them is `peers` or ends in a quote
  followed by `peers`, and only then (`ServerMessage.MembersReadBack`, `ServerMessage.NickHidesMembers`). Such a client
  misses whoever was there until they send a status; otherwise replica agreement holds (`Replica.ReplicaAgrees`,
  `Replica.ReadersMissNobody`, `Replica.UnreadableRoomHappens`).
- A client that enters another room has a right picture of it. False when it knew somebody who is not there, or cannot
  read the list and did not know them all (`Replica.NextRoomAgreesExactly`, `Replica.StalePictureHappens`).

Of the candidate printer and parser by themselves one would like to say that any list comes back. It does exactly when
every candidate has clean strings, an address and a port, and no type that is `port` or ends in a quoted `port`
(`Candidates.SurvivesUnchanged`, `Candidates.HiddenPortIsLost`); the lists the program prints are of this kind
(`Candidates.GatheredRoundTrip`).

`docs/signaling-protocol.md` differs from the code in three places, and the model follows the code: voice frames are
relayed, not rejected; a leaving host is replaced, not the end of the room; and `room_closed` is never delivered to
anybody (`Delivery.RoomClosedReachesNobody`), because it is posted to a room that is already empty.

## Model

| member | source | states |
|---|---|---|
| Adpcm.TrackingBound | client/src/audio/VoiceEngine.cpp:171-207 | a sample less than two steps from the predictor is met to within step/8 + 2, clamping included |
| Adpcm.OverloadRecovery | client/src/audio/VoiceEngine.cpp:180-207 | an overloaded step moves towards the sample without overshoot, gains at least 11, and raises the index by 8 up to 88 |
| Adpcm.SlopeOverloadEnds | client/src/audio/VoiceEngine.cpp:171-207 | from any coder state at most 11 consecutive samples are overloaded |
| Adpcm.SlopeOverloadReachesEleven | client/src/audio/VoiceEngine.cpp:171-207 | a jump across the whole range at the smallest step overloads 11 samples, so the bound is tight |
| Adpcm.CodeIsLargest | client/src/audio/VoiceEngine.cpp:171-207 | a code is the sign of the difference and the largest magnitude whose parts of the step it reaches |
| Adpcm.StepAdapts | client/src/audio/VoiceEngine.cpp:53-55 | below the step the index falls by one, from it on it rises by 2, 4, 6 or 8 by the quarter the difference falls in, within 0 and 88 |
| Adpcm.NearLowersStep | client/src/audio/VoiceEngine.cpp:171-207 | k samples nearer than the step lower the index by k, down to 0 |
| Adpcm.ConstantSettles | client/src/audio/VoiceEngine.cpp:171-207 | from any coder state 101 equal samples bring the step back to 7 and the predictor within 2 |
| Adpcm.Lockstep | client/src/audio/VoiceEngine.cpp:171-207 | the decoder's predictor follows the encoder's sample by sample |
| Adpcm.UnpackPack | client/src/audio/VoiceEngine.cpp:209-223 | two codes a byte, low half first, come apart again for odd and even counts |
| Adpcm.PackedAt | client/src/audio/VoiceEngine.cpp:209-223 | byte i holds code 2i in its low half and the next in its high half |
| Adpcm.PayloadLayout | client/src/audio/VoiceEngine.cpp:153-170 | magic, first sample, index 0 and count lie in front of the codes, low bytes first |
| Adpcm.DecodeEncode | client/src/audio/VoiceEngine.cpp:399-440 | decoding an encoded vector of 1 to 65535 samples gives exactly the encoder's own predictors, the first sample exact |
| Adpcm.DecodedNearOriginal | client/src/audio/VoiceEngine.cpp:399-440 | each decoded sample is within step/8 + 2 of its original unless the quantiser was overloaded there |
| Adpcm.CloseWithinTwelve | client/src/audio/VoiceEngine.cpp:153-224 | every stretch of twelve decoded samples holds one close to its original |
| Adpcm.Encode | client/src/audio/VoiceEngine.cpp:153-224 | the loop with its carried nibble writes the header and packed codes of the specification, 9 + ceil((n-1)/2) bytes |
| Adpcm.Decode | client/src/audio/VoiceEngine.cpp:399-440 | the nested loops return exactly the samples of the specification, or refuse |
| VoicePayload.PcmRoundTrip | client/src/audio/VoiceEngine.cpp:367-397 | PCM decoding undoes PCM encoding for 1 to 65535 samples |
| VoicePayload.PcmLengthMatters | client/src/audio/VoiceEngine.cpp:382-397 | a PCM payload cut short or added to is refused |
| VoicePayload.VoiceNeverEmpty | client/src/audio/VoiceEngine.cpp:442-464 | any payload of two bytes or more, and only those, becomes one frame of 320 samples |
| VoicePayload.PcmHeardExactly | client/src/audio/VoiceEngine.cpp:442-464 | a frame sent as PCM is heard sample for sample, whatever the Opus library would answer |
| VoicePayload.AdpcmHeardExactly | client/src/audio/VoiceEngine.cpp:442-464 | a frame sent as ADPCM is heard as the encoder's reconstruction |
| VoicePayload.OpusHeardExactly | client/src/audio/VoiceEngine.cpp:309-345 | an Opus payload is heard as the library decodes it, up to 960 announced samples |
| VoicePayload.BareHeardExactly | client/src/audio/VoiceEngine.cpp:442-464 | bytes under no magic are the samples, low byte first |
| VoicePayload.SingleSampleHeld | client/src/audio/VoiceEngine.cpp:442-464 | a single sample is held for a whole frame |
| VoicePayload.PcmLayout | client/src/audio/VoiceEngine.cpp:367-380 | magic, count and samples lie where they are read, low bytes first |
| VoicePayload.FrameAlwaysSent | client/src/audio/VoiceEngine.cpp:1397-1424 | a captured frame has a payload in either codec of the program, so no number is spent on nothing |
| VoicePayload.EncodePcm | client/src/audio/VoiceEngine.cpp:367-380 | the payload decodes to the normalised input |
| VoicePayload.DecodePcm | client/src/audio/VoiceEngine.cpp:382-397 | returns the samples of the specification or refuses |
| VoicePayload.DecodeVoice | client/src/audio/VoiceEngine.cpp:442-464 | tries Opus, PCM, ADPCM and bare samples in this order |
| Base64.RoundTrip | client/src/net/SignalingClient.cpp:192-255 | the text of any byte string, whitespace inserted anywhere, decodes to it |
| Base64.WrapKeepsLowBits | client/src/net/SignalingClient.cpp:232-252 | the wrapping accumulator keeps the twelve bits bytes are taken from |
| Base64.RefusedExactly | client/src/net/SignalingClient.cpp:236-252 | decoding fails exactly when a foreign character comes before any padding |
| Base64.KnownTexts | client/src/net/SignalingClient.cpp:192-210 | vectors of section 10 of RFC 4648, and the characters for 62 and 63 |
| Base64.Base64Encode | client/src/net/SignalingClient.cpp:192-210 | the loop over triples writes the specified text |
| Base64.Base64Decode | client/src/net/SignalingClient.cpp:212-255 | the loop with its accumulator reads as specified, refusals included |
| BigEndian.FromToBytes | client/src/net/DirectVoiceTransport.cpp:295-344 | numbers that fit come back from their bytes |
| BigEndian.FirstWeighsMost | client/src/net/DirectVoiceTransport.cpp:313-344 | the number of two byte strings in a row is that of the first times the weight of the second, plus the second |
| BigEndian.XorBits | client/src/net/DirectVoiceTransport.cpp:747-750 | a bit of the exclusive-or is set iff the bits differ there |
| Packet.RoundTrip | client/src/net/DirectVoiceTransport.cpp:346-435 | every field of a packet that fits comes back, bytes appended or not, a negative time as 0 |
| Packet.PrefixesOf | client/src/net/DirectVoiceTransport.cpp:385-435 | of any accepted datagram exactly the prefixes that reach its announced extent are accepted, and decode alike |
| Packet.StrictPrefixRejected | client/src/net/DirectVoiceTransport.cpp:385-435 | every strict prefix of an encoded packet is refused |
| Packet.Layout | client/src/net/DirectVoiceTransport.cpp:346-374 | every field lies at its offset under "TVOA", version 1, and nothing is written beyond 1200 or 65535 bytes |
| Packet.EncodePacket | client/src/net/DirectVoiceTransport.cpp:346-374 | writes the packet of the specification, or nothing when a part is too long |
| Packet.DecodePacket | client/src/net/DirectVoiceTransport.cpp:385-435 | the sequential readers accept and return exactly what the specification does |
| Packet.AppendU64 | client/src/net/DirectVoiceTransport.cpp:307-311 | the loop over shifts writes eight bytes, most significant first |
| Packet.ReadU64 | client/src/net/DirectVoiceTransport.cpp:334-344 | reads eight bytes back, or refuses when fewer are left |
| Stun.FindMapped | client/src/net/DirectVoiceTransport.cpp:727-763 | on any buffer the loop ends in bounds and returns what the walk over attributes finds |
| Stun.CarriedIsWritten | client/src/net/DirectVoiceTransport.cpp:738-758 | reading an address attribute undoes writing it, the exclusive-or with the cookie included |
| Stun.MappingsAreWritten | client/src/net/DirectVoiceTransport.cpp:738 | an attribute maps an IPv4 address iff its type is 1 or 0x20 and a server could have written it for some endpoint |
| Stun.ResponseAnswered | client/src/net/DirectVoiceTransport.cpp:727-763 | for every padded attribute list of at most 492 bytes the answer is its first IPv4 mapping |
| Stun.EndpointRecovered | client/src/net/DirectVoiceTransport.cpp:727-763 | the endpoint the server wrote into its first mapping is found, port 0 replaced by the local port |
| JsonText.ReadUndoesEscape | client/src/net/SignalingClient.cpp:126-160 | reading an escaped string gives it back, other control characters turned to spaces |
| JsonText.AfterRaw | client/src/net/SignalingClient.cpp:111-124 | a key search passes any escaped string, whoever escaped it, unless the string is the key or ends with a quote and the key |
| JsonText.AfterQuoted | client/src/net/SignalingClient.cpp:111-124 | so it does the strings the client prints, by their unescaped text |
| JsonText.SpaceSkipped | client/src/net/SignalingClient.cpp:111-124 | between colon and value exactly the six characters of white space are passed |
| JsonText.EscapeJson | client/src/net/SignalingClient.cpp:51-81 | escapes as specified |
| JsonText.FindJsonValue | client/src/net/SignalingClient.cpp:111-124 | finds the value behind the first quoted key and colon |
| JsonText.ExtractJsonString | client/src/net/SignalingClient.cpp:126-160 | the reading loop returns the string value of the specification |
| JsonText.ExtractJsonNumber | client/src/net/DirectVoiceTransport.cpp:140-153 | reads the unsigned decimal behind a key |
| JsonScan.ScanStopsAtMatchingBracket | client/src/net/SignalingClient.cpp:257-296 | from the opening bracket of any printed tree, whatever its strings hold and whatever follows, the scan stops at its close |
| JsonScan.BalancedValueOf | client/src/net/SignalingClient.cpp:257-296 | a printed object or array behind a key is extracted exactly |
| JsonScan.SplitUndoesPrint | client/src/net/SignalingClient.cpp:298-335 | splitting a printed array gives each object's own text, in order |
| JsonScan.StringArrayUndoesPrint | client/src/net/SignalingClient.cpp:337-384 | a printed array of strings is read back in order |
| JsonScan.ExtractBalancedValue | client/src/net/SignalingClient.cpp:257-296 | the loop over depth and string state is the scan of the specification |
| JsonScan.SplitObjectArray | client/src/net/SignalingClient.cpp:298-335 | the loop splits as specified |
| JsonScan.ParseStringArray | client/src/net/SignalingClient.cpp:337-384 | the loop reads as specified |
| JsonFields.FieldFound | client/src/net/SignalingClient.cpp:111-124 | in a printed object a field is found when no string in front of it passes for its key |
| JsonFields.NextFieldFound | client/src/net/SignalingClient.cpp:111-124 | otherwise the value behind the first such string is read instead |
| JsonFields.FieldAbsent | client/src/net/SignalingClient.cpp:111-124 | a key the object lacks is not found |
| GoJson.HitsOfEscaped | coordinator/main.go:441 | a string the coordinator prints passes for a key exactly when the string itself does |
| GoJson.ReadUndoesGoEscape | client/src/net/SignalingClient.cpp:126-160 | the client reads back what the coordinator's library escaped, but for characters escaped by number |
| ServerMessage.MembersReadBack | client/src/net/SignalingClient.cpp:337-409 | the member ids printed into a room come back exactly unless its name or its host's nick passes for the key, and then none does |
| ServerMessage.NickHidesMembers | client/src/net/SignalingClient.cpp:337-409 | a host nick `peers`, or one ending in a quoted `peers`, hides every member |
| ServerMessage.PayloadReadBack | client/src/net/SignalingClient.cpp:981-994 | the payload of a relayed message arrives whatever the sender's nick |
| ServerMessage.PeerIdReadBack | client/src/net/SignalingClient.cpp:972-983 | so does the sender's id |
| ServerMessage.ReadIsMeant | client/src/net/SignalingClient.cpp:918-1012 | for every message of the coordinator about a room the client reads what it means, but for the members of an unreadable room |
| ServerMessage.HandleServerMessage | client/src/net/SignalingClient.cpp:918-1012 | the type dispatch with its searches reads as specified |
| Candidates.PayloadRoundTrip | client/src/net/DirectVoiceTransport.cpp:1007-1041 | parsing the printed payload of any list gives exactly its survivors, in order |
| Candidates.GatheredRoundTrip | client/src/net/DirectVoiceTransport.cpp:1007-1041 | candidates as a start gathers them come back as the same list |
| Candidates.SurvivesUnchanged | client/src/net/DirectVoiceTransport.cpp:1023-1041 | a list comes back unchanged exactly when each candidate's strings are clean, it has address and port, and its type hides no port |
| Candidates.HiddenPortIsLost | client/src/net/DirectVoiceTransport.cpp:1023-1041 | a candidate of type `port` is lost |
| Candidates.CandidateRoundTrip | client/src/net/DirectVoiceTransport.cpp:1023-1041 | one printed object parses to its survivor, a hidden port read as 0 |
| Candidates.DefaultsRead | client/src/net/DirectVoiceTransport.cpp:1030-1039 | what an object does not say is a host candidate without address and port |
| Candidates.MakeLocalPayloadJson | client/src/net/DirectVoiceTransport.cpp:1007-1021 | the printing loop writes the JSON tree of the list |
| Candidates.ParseCandidates | client/src/net/DirectVoiceTransport.cpp:1023-1041 | the parsing loop is the parser of the specification |
| RelayFrame.RelayRoundTrip | client/src/net/SignalingClient.cpp:991-1007 | number, time and every payload byte of a relayed frame come back through key search, decimal and base64 |
| RelayFrame.DefaultsRead | client/src/net/SignalingClient.cpp:991-1002 | missing numbers are read as 0, missing audio as nothing |
| RelayFrame.BrokenAudioRead | client/src/net/SignalingClient.cpp:998-1005 | audio that is no base64 is read as nothing |
| RelayFrame.PrintFrame | client/src/net/SignalingClient.cpp:812-823 | the printed object reads back as the frame |
| RelayFrame.ReadFrame | client/src/net/SignalingClient.cpp:991-1007 | missing numbers count as 0, missing or broken audio as nothing |
| Coordinator.DeliveryKeeps | coordinator/main.go:374-389 | posting changes nobody's nick, room or registration |
| Coordinator.LeastUnique | coordinator/main.go:81-95 | the new host is the one id smaller than all others |
| Hub.Client.constructor | coordinator/main.go:403-408 | a new client is nameless, roomless and has an empty queue |
| Hub.Hub.Enqueue | coordinator/main.go:383-389 | the client's queue takes the message or counts it as dropped, nobody else's changes |
| Hub.Hub.BroadcastLocked | coordinator/main.go:374-381 | everybody in the room object but the named peer is posted to, once |
| Hub.Hub.BroadcastRoomsLocked | coordinator/main.go:359-364 | every client is posted the list of the rooms as they are |
| Hub.Hub.PromoteRoomHost | coordinator/main.go:81-95 | the room's least id becomes host, with its nick |
| Hub.Hub.LeaveRoomLocked | coordinator/main.go:269-298 | rooms, clients and room objects after leaving, the deleted room object included |
| Hub.Hub.CreateRoom | coordinator/main.go:193-224 | contents step as specified, invariant kept |
| Hub.Hub.JoinRoom | coordinator/main.go:226-260 | contents step as specified, also when the joined object has just left the list |
| Hub.Hub.LeaveRoom | coordinator/main.go:262-267 | contents step as specified, invariant kept |
| Hub.Hub.RouteToPeer | coordinator/main.go:300-315 | contents step as specified, stamped or refused |
| Hub.Hub.BroadcastPeerStatus | coordinator/main.go:317-330 | contents step as specified |
| Hub.Hub.BroadcastVoiceFrame | coordinator/main.go:332-351 | contents step as specified, payload limits included |
| Hub.Hub.SendRooms | coordinator/main.go:353-357 | the asking client gets the list of the rooms as they are |
| Hub.Hub.Handle | coordinator/main.go:164-191 | every message type takes its step |
| Hub.Hub.AddClient | coordinator/main.go:118-122 | contents step as specified, invariant kept |
| Hub.Hub.RemoveClient | coordinator/main.go:124-162 | contents step as specified, invariant kept |
| Hub.Hub.TakeOldest | coordinator/main.go:435-456 | the write loop takes the oldest message |
| HubSafety.SoundStep | coordinator/main.go:118-298 | every operation keeps: rooms hold 1 to 5 registered peers that name them, the host among them, members of listed rooms are in them, and all ids are generated ones |
| HubSafety.SoundRun | coordinator/main.go:118-298 | so does every run |
| HubSafety.OneRoomEach | coordinator/main.go:118-298 | nobody is in two rooms |
| HubSafety.DanglingExactly | coordinator/main.go:239-247 | a client names an unlisted room after a step iff it just rejoined its own room alone, or did before and did not move |
| HubSafety.NobodyDangles | coordinator/main.go:226-298 | on runs without such a rejoin every named room is listed and holds the client |
| HubSafety.DanglingHappens | coordinator/main.go:239-247 | a three-event run that ends with a client in an unlisted room |
| HubSafety.ListedAfter | coordinator/main.go:269-284 | a room leaves the list exactly when its last member leaves it |
| HubSafety.HostSuccession | coordinator/main.go:287-289 | a host stays until it leaves; then the least remaining id takes over, with its nick |
| Delivery.PushAllFits | coordinator/main.go:383-389 | a queue takes, of what it is offered, the first that fit |
| Delivery.QueueStep | coordinator/main.go:383-389 | each client's queue after a step, message by message |
| Delivery.FirstInFirstOut | coordinator/main.go:383-389 | what was written and what waits is, in order, what was offered without the dropped ones; at most 64 wait |
| Delivery.OfferedProper | coordinator/main.go:300-351 | every message a step offers comes from the receiver's room, signed with the true sender, room and nick, broadcasts never to their sender; a newcomer is sent the room as it then is |
| Delivery.QueuedProper | coordinator/main.go:300-351 | so does every message queued on any run |
| Delivery.RoomClosedReachesNobody | coordinator/main.go:140-147 | room_closed is in no queue, ever |
| Delivery.ListsAreCurrent | coordinator/main.go:353-372 | on every run the last room list a client was offered shows the rooms as they are now |
| Delivery.BroadcastExact | coordinator/main.go:317-351 | status, and voice of 1 to 4096 bytes, reach each other member of the listed room once and nobody else; any other reaches nobody |
| Delivery.SignalExact | coordinator/main.go:300-315 | a signal reaches the named client of the same room only, or its sender hears an error |
| Requests.JoinExactly | coordinator/main.go:226-260 | a join is granted iff the room is listed with fewer than five peers; otherwise nobody moves and the client alone is sent the one error that fits |
| Requests.CreateExactly | coordinator/main.go:193-224 | the creator is alone in the room and its host, under the given or default names, and is sent it |
| Requests.LeaveExactly | coordinator/main.go:262-267 | a leaver names no room and is sent the new list |
| Requests.AnsweredExactly | coordinator/main.go:164-191 | greetings, list requests, heartbeats and unknown types are answered to their sender alone |
| Requests.ListShows | coordinator/main.go:366-372 | a room list shows each room once, with its own data and no members |
| Requests.ConnectExactly | coordinator/main.go:403-410 | a new client is called Player, is roomless and has been sent nothing |
| Session.VoiceSession.CreateRoom | client/src/core/VoiceSession.cpp:8-30 | one member, host is the local client, at most five peers, nobody known |
| Session.VoiceSession.JoinRoom | client/src/core/VoiceSession.cpp:32-51 | refused unchanged when full, otherwise nobody is known yet |
| Session.VoiceSession.LeaveRoom | client/src/core/VoiceSession.cpp:53-57 | nothing is left of room and peers |
| Session.VoiceSession.AddOrUpdatePeer | client/src/core/VoiceSession.cpp:89-102 | exactly this peer is filed with its media state unless nameless or the client itself, and counted up to the maximum |
| Session.VoiceSession.RemovePeer | client/src/core/VoiceSession.cpp:104-109 | the peer is gone and the count follows |
| Session.VoiceSession.Peers | client/src/core/VoiceSession.cpp:71-80 | the local peer first, then every known peer in the order of the ids |
| Session.OrderedIs | client/src/core/VoiceSession.cpp:71-80 | that order holds each id once, each smaller than those behind it |
| Session.HandleSignalingEvent | client/src/core/Application.cpp:403-440 | known peers and calls to transport and player are exactly those the event asks for |
| Session.KnownIsApplied | client/src/core/Application.cpp:403-440 | handling what a message means is the step of the replica theorem |
| Session.Receive | client/src/net/SignalingClient.cpp:918-1012 | from the text the coordinator wrote to the session: known peers change as in the replica theorem, and transport and player get exactly what was meant |
| Client.CallsAreMeant | client/src/core/Application.cpp:403-440 | what the dispatcher asks for is, peer by peer, the one move of the handshake the message means, and a relayed frame to play iff it sounds and its sender is not heard directly |
| Client.Receive | client/src/core/Application.cpp:403-440 | from a message's text to session, transport and player: routes and outgoing signals change by exactly those moves, and the player gets exactly that frame |
| Client.CallIsEvent | client/src/core/Application.cpp:403-440 | a call to the transport is a step of the handshake, a signal the delivery of what was sent |
| Client.CallsAreRun | client/src/core/Application.cpp:403-440 | the calls of a message are a run of the handshake |
| Session.OneInitiates | client/src/core/Application.cpp:118-120 | of two distinct clients exactly one offers |
| Replica.FarewellTold | coordinator/main.go:269-298 | a departure takes the leaver out of the picture of exactly those it leaves behind |
| Replica.JoinTold | coordinator/main.go:246-259 | a newcomer learns the whole room if it can read the list, and the room the newcomer |
| Replica.RelayTold | coordinator/main.go:300-351 | of everything relayed or answered only a status changes a picture, and it adds its sender |
| Replica.StepAgrees | coordinator/main.go:118-351 | told of any step, a client that went nowhere else knows its company again, less those it still misses |
| Replica.FaithfulStep | client/src/core/Application.cpp:403-433 | the replica invariant is kept by every coordinator step and every handled message |
| Replica.ReplicaAgrees | client/src/core/Application.cpp:403-433 | on every run a client that entered one room and lost no message since ends up knowing exactly its other members less the missed ones, so all of them iff none is missed |
| Replica.ReadersMissNobody | client/src/net/SignalingClient.cpp:386-409 | a client that could read every list it was sent misses nobody |
| Replica.UnreadableRoomHappens | client/src/net/SignalingClient.cpp:386-409 | a run after which two are in a room and one of them knows nobody, because the host is called `peers` |
| Replica.NextRoomAgreesExactly | coordinator/main.go:226-260 | after entering a further room the picture is right iff all known before are in that room, and its list is readable or shows nobody new |
| Replica.StalePictureHappens | coordinator/main.go:193-224 | a run after which a client alone in its second room still knows the host of the first |
| Replica.QueuedPosted | coordinator/main.go:118-351 | every message that waits in a queue on any run is of the form whose text is read as it is meant |
| Handshake.Transport.EnsurePeer | client/src/net/DirectVoiceTransport.cpp:1043-1055 | route and signals as specified: an offer once, by the initiator |
| Handshake.Transport.RemovePeer | client/src/net/DirectVoiceTransport.cpp:1057-1059 | the route is gone |
| Handshake.Transport.HandleSignal | client/src/net/DirectVoiceTransport.cpp:1061-1091 | candidates are those of the payload, an offer is answered once |
| Handshake.Transport.PacketHeard | client/src/net/DirectVoiceTransport.cpp:1255-1272 | a packet from a peer opens its route |
| Handshake.Transport.PumpAll | client/src/net/DirectVoiceTransport.cpp:1140-1170 | every route gets its turn once, and sends exactly what it is due |
| Handshake.HandshakeBounded | client/src/net/DirectVoiceTransport.cpp:1043-1170 | in a route's life at most one offer, by the smaller id, one answer, by the larger, and eight candidates over 3 s apart, none once the peer was heard |
| Handshake.NoGlare | client/src/net/DirectVoiceTransport.cpp:1043-1091 | whatever is delivered when, no two clients ever offered to each other |
| Handshake.AnswersFollowOffers | client/src/net/DirectVoiceTransport.cpp:1084-1088 | every answer follows an offer that went the other way |
| Handshake.OfferMade | client/src/net/DirectVoiceTransport.cpp:1043-1055 | once the smaller id met the larger, its route has made exactly one offer |
| Handshake.AnswerMade | client/src/net/DirectVoiceTransport.cpp:1084-1088 | once an offer arrived at a running client, its route has made exactly one answer |
| Handshake.CandidateMade | client/src/net/DirectVoiceTransport.cpp:1140-1170 | a pump sends a candidate iff fewer than eight were sent, over 2 s passed since meeting and 3 s since the last, and the peer was not heard |
| Handshake.MeetingRestarts | client/src/net/DirectVoiceTransport.cpp:1043-1055 | meeting again restarts the clock and keeps what was learned |
| Handshake.LatestSignalCounts | client/src/net/DirectVoiceTransport.cpp:1061-1082 | a delivered signal's candidates replace those known before |
| Handshake.CandidatesArrive | client/src/net/DirectVoiceTransport.cpp:1061-1082 | a route's candidates are those the peer printed in a signal to this client |
| Capture.CutGoesOn | client/src/audio/VoiceEngine.cpp:1005-1012 | framing does not depend on where device buffers end |
| Capture.FramesInOrder | client/src/audio/VoiceEngine.cpp:962-1025 | frames handed out are the recording cut every 320 samples, in order, none twice; at most the last 25 wait |
| Capture.NothingMissing | client/src/audio/VoiceEngine.cpp:962-1025 | while nothing overflowed, samples out, waiting and left over are the recording |
| Capture.WaitingExactly | client/src/audio/VoiceEngine.cpp:962-1025 | what waits after a buffer is all that waited and was cut, or its last 25 |
| Capture.Capture.EnqueueVoiceFrames | client/src/audio/VoiceEngine.cpp:962-1025 | accumulator and pending frames as specified; shortening the accumulator is dead code |
| Capture.Capture.DrainVoiceFrames | client/src/audio/VoiceEngine.cpp:620-628 | hands out every waiting frame |
| Gate.VoiceSender.Pump | client/src/audio/VoiceEngine.cpp:1334-1446 | timers, buffers and numbered frames of one pump as specified |
| Gate.SentInOrder | client/src/audio/VoiceEngine.cpp:1397-1446 | on every run sent frames are an ordered selection of captured ones, numbered modulo 2^32, and transmitting keeps nothing back |
| Gate.BurstExact | client/src/audio/VoiceEngine.cpp:1427-1446 | a burst starts with the last six frames not yet sent or muted away and misses none while it lasts |
| Gate.TimersExact | client/src/audio/VoiceEngine.cpp:1364-1384 | the timers count down from the last loud tick or release, whatever happened before |
| Gate.BurstLastsExactly | client/src/audio/VoiceEngine.cpp:1364-1384 | voice activation lasts exactly 27 ticks after the last loud one, the key exactly 7 after release |
| Gate.SendsExactly | client/src/audio/VoiceEngine.cpp:1334-1446 | a tick sends iff it is unmuted, has a transport, and was loud at most 27 or held at most 7 ticks ago: then all it drains and, at a burst's start, the last six unsent; otherwise nothing |
| Playback.Player.PlayRemoteFrame | client/src/audio/VoiceEngine.cpp:1461-1494 | a frame is ignored, dropped as repeated, or queued with the oldest beyond twelve dropped |
| Playback.Player.PumpRemotePlayback | client/src/audio/VoiceEngine.cpp:1257-1305 | every peer's turn as specified, and each position of the mix is the sum of the audible frames |
| Playback.IsAudible | client/src/audio/VoiceEngine.cpp:89-104 | peak and root mean square test without the root |
| Playback.AudibleBetween | client/src/audio/VoiceEngine.cpp:89-104 | a frame is mixed if it has a sample of 900 or none below 260, and not if it has none of 260 |
| Playback.PlaysExactly | client/src/audio/VoiceEngine.cpp:1257-1301 | a pump 20 ms after the last plays a peer's oldest frame iff two wait, or one does and playing has begun and not run dry; it forgets the peer iff nothing waits and nothing came for 2 s |
| Playback.ArrivesExactly | client/src/audio/VoiceEngine.cpp:1461-1494 | a frame is accepted iff its number exceeds the last accepted one, and then queued, a thirteenth at the cost of the oldest |
| Playback.QueueIsPlayed | client/src/audio/VoiceEngine.cpp:1257-1301 | of n >= 2 waiting frames d due pumps without an arrival play the first d, so n play all, in order |
| Playback.PumpTakesHeads | client/src/audio/VoiceEngine.cpp:1273-1301 | a pump takes exactly the frames it plays; forgetting a peer loses none |
| Playback.PlaybackConserves | client/src/audio/VoiceEngine.cpp:1257-1488 | on every run frames offered are dropped, played or queued; queues hold at most 12; what a peer's entry played and queues is in the order of its numbers |
| Mixer.TargetInRange | client/src/audio/VoiceEngine.cpp:1311-1316 | the gain aimed at lies in (0, 1) and keeps the peak at 28000 |
| Mixer.TargetIsLargest | client/src/audio/VoiceEngine.cpp:1311-1316 | the gain aimed at is the largest that keeps 0.95, or 0.72 over the root of the voices, and the peak at 28000 |
| Mixer.SmoothedExactly | client/src/audio/VoiceEngine.cpp:1317-1321 | the gain falls at once and rises by 15 % of the way |
| Mixer.PeakIsReached | client/src/audio/VoiceEngine.cpp:1307-1310 | the peak is the magnitude of some sample |
| Mixer.LimitFits | client/src/audio/VoiceEngine.cpp:76-87 | the limiter keeps the sign, never amplifies beyond rounding, and fits in 16 bits |
| Mixer.LimitKeeps | client/src/audio/VoiceEngine.cpp:76-87 | up to 82 % of full scale a sample is only rounded, and a louder one stays there |
| Mixer.Headroom | client/src/audio/VoiceEngine.cpp:1307-1326 | after any run of mixes the gain is in (0, 1], not above the target, and every scaled sample at most 28000 |
| Mixer.Mixer.Mix | client/src/audio/VoiceEngine.cpp:1303-1326 | gain and limited output of one mix as specified |
| VoicePath.GoodStep | client/src/audio/VoiceEngine.cpp:1461-1488 | whatever arrives by either way, accepted frames are decodings of the sent frames with their numbers |
| VoicePath.HeardInCaptureOrder | client/src/audio/VoiceEngine.cpp:1397-1488 | end to end, frames accepted and played from a sender are frames it captured, in capture order, none twice |
| VoicePath.NewFrameAccepted | client/src/audio/VoiceEngine.cpp:1469-1484 | a frame newer than everything accepted is accepted next, by either way |
| VoicePath.RelayedExactly | client/src/core/Application.cpp:426-430 | a relayed frame is played, as it was sent, iff its sender is not heard directly |
| VoicePath.DatagramExactly | client/src/net/DirectVoiceTransport.cpp:1255-1300 | a datagram of another room or source does nothing, a ping or an old number only shows the sender is there, any other is played |
| VoicePath.ReturnAccepted | client/src/net/DirectVoiceTransport.cpp:1057-1059 | after a route was made anew the next new frame is accepted |
| VoicePath.RecordedStep | client/src/audio/VoiceEngine.cpp:1386-1395 | the frames the gate gets are those the device hands out, frames of the recording in order |
| VoicePath.HeardFromRecording | client/src/audio/VoiceEngine.cpp:1386-1488 | from the recording to the ear: frames accepted and played are frames of the recording cut every 320 samples, in its order, none twice; PCM is heard sample for sample, ADPCM as its reconstruction |
| VoicePath.NeedsRelay | client/src/core/Application.cpp:138-163 | a copy is relayed iff some other known peer is not heard directly |

## Left out

- Windows audio, WinHTTP, Winsock, windows, tray and hotkeys: foreign calls and user interface; what they deliver is an input.
- Opus: a library; decoding is "refuses, or returns at most the announced samples", encoding an arbitrary payload.
- Floating point: interpolation in `normalizeFrameSamples`, the resampling branch of capture, spectrum and level meters; the mixer is modelled over the reals.
- Websocket reads and writes, goroutine scheduling inside a locked operation.
- Room lists and error texts on the wire, and the payload rewriting of Go's JSON library: clients print payloads without spaces, `<`, `>` and `&`, which is all it would change.
- JSON that this program does not print: signs, fractions and exponents of numbers, and foreign key orders.
- `PasswordGate` and `LanDiscovery`: a placeholder hash and a broadcast without a protocol.
- Delivery and liveness: a sender that hears a peer stops relaying even if the peer does not hear it, so only order and at-most-once are claimed.
- Session.HandleSignalingEvent: nick, mute flag and levels inside a status message are parsed before it and come in as `peer`.
- The other fields of a parsed room, which are shown and not acted on.
- ServerMessage.ReadIsMeant: signals and frames are taken to carry an object and no room, as clients send them; a foreign client could relay other fields.
- Hub.Hub.PromoteRoomHost: scans for the smallest id instead of sorting all of them.
- Hub.Hub.RemoveClient: takes the client out of the room object before the client map, which nobody can observe inside the lock.
- Handshake.Transport.PumpAll: pings and socket reads of the pump are not modelled.
- Playback.PlaybackConserves: holds within one engine run; `start` and `stop` empty the queues.
- VoicePath.HeardInCaptureOrder: holds within one sender run of at most 2^32 frames and one receiver entry; a peer silent for two seconds is forgotten, and its old frames could be accepted again.
- VoicePath.GoodStep: packets that name the sender as their source are taken to come from it; UDP sources are not authenticated by the code.
- JsonText.ExtractJsonNumber: signs, fractions and exponents, which `strtod` reads too, are not modelled.
- Candidates.ParseCandidates: ports in such notation are not modelled; the program prints none.
- Gate.VoiceSender.Pump: encoding is not part of the step; `VoicePayload.FrameAlwaysSent` shows that no captured frame is dropped for it.
- RelayFrame.ReadFrame: numbers beyond 32 and 53 bits, where the code converts through double, are not modelled.
- Stun.FindMapped: request, retries and the transaction id check before the walk are not modelled.
