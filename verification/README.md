# Verified model of the mqttproto state machines

This project models the sans-I/O core of mqttproto, an implementation of MQTT Version 5.0, in Dafny and
proves properties of it. It covers the wire codec, the incremental session engine that is fed bytes and
collects replies, the client and the broker sessions on top of it, and the broker's fan-out. There is no
clock, no socket and no concurrency in that core; a run of a client against a broker is modelled as a
sequence of steps over two first-in first-out channels.

To verify everything: `dafny verify dfyconfig.toml`.

## Layout

| file | contents |
|---|---|
| Bytes, Wire | bytes, UTF-8 text (RFC 3629, section 4), integers, length-prefixed values |
| Properties | property blocks (MQTT section 2.2.2) |
| Subscriptions | topic filters: validation and matching (sections 4.7.1 and 4.7.2) |
| Packets, Encoders, Decoding | all packet types, the encoders as methods that append to a buffer, the decoders |
| RoundTrip, Range, Framing | round trips, what arbitrary bytes decode to, and when a frame is complete |
| Layout | what the encoders write, byte by byte |
| Grammar, Utf8, Accepted, Refused | which bytes the decoder accepts for which packet, and how it refuses others, without reference to the encoders or their constants |
| Sessions, SessionFacts | one step of a session as a function on session values, and what each step keeps |
| Matching | topic matching by characters |
| Inbound, Requests, Answers | what each inbound packet and each call does, in numbers: what is sent, every field after it, and what a call that raises leaves behind |
| StateMachine | the session state machine as a class with its fields and buffers; every method is proved equal to the step function of its name |
| Feeding | `feed_bytes` over whole streams |
| Handshake, HandshakeSteps, HandshakeRuns | a client and a broker session joined by channels: invariant, steps, runs |
| Transport | the same two sessions with bytes in flight, cut and delayed in any way |
| Agreement | the two subscription maps over whole runs |
| AutoAcknowledge | the client that acknowledges by itself, against an arbitrary peer |
| ReferenceCounting, PacketIds | the client's counts and its packet ids over whole runs |
| Lifecycle | connecting, refusing and disconnecting over whole runs of clients and broker sessions |
| Resumption | what a client resends |
| Broker | fan-out and retained messages |

Text is its UTF-8 bytes, so a string is a byte sequence with `ValidUtf8`. Dictionaries whose order shows on
the wire (properties, the table of pending packets) carry their insertion order. Exceptions are values:
`Decoded` for decoders, `Status` for steps, where a step that raises also says what it has already changed.
`ack_state`, which is not on the wire, is kept in the entry of the table and not in the packet. Subscriptions
are compared with all their options, which `Subscription.__eq__` does not do.

The joint model of `Handshake` lets a client call publish, subscribe and unsubscribe, lets the broker deliver
messages under packet ids reserved for it, delivers packets in order, and has an application of the broker
that acknowledges, releases, completes and grants or rejects what `feed_bytes` has returned. It assumes that
the two sides use different packet ids, that the client's next packet id is free in its own table and was
never used for an UNSUBSCRIBE (`FreshAtFirst` shows when this comes for free), that texts fit their two-byte
length, and that the broker's messages are safe for the wire, as all decoded and all newly published ones are.
`Transport` shows that nothing changes when bytes are in flight instead of packets.

## Where the code differs from what one expects

Each of these is proved, with the condition under which the expectation holds.

- A packet survives encoding and decoding exactly if it is `WireSafe` (`Range.RoundTripIff`). A QoS 0 message
  constructed with a packet id does not (`Range.UnsafeMessage`), nor does a binary payload beside an explicit
  payload format indicator, nor a user property given among the ordinary properties, which comes back among the
  user properties (`Range.MisplacedProperty`).
- A client never acknowledges a message under packet id 0 by itself (`AutoAcknowledge.ZeroIsNotAnswered`),
  because it tests the id for truth.
- The broker keeps every UNSUBSCRIBE request in its table after answering it, so its packet id is refused ever
  after (`HandshakeRuns.SpentIdRefused`).
- The requests on the wire that name a pattern take turns, SUBSCRIBE first, exactly if the client never
  subscribes to a new pattern of 65536 bytes or more (`ReferenceCounting.TurnsExactly`). Such a call raises
  OverflowError after it has counted and installed all its patterns, and giving one of them up sends an
  UNSUBSCRIBE first (`ReferenceCounting.UnsubscribeFirst`).
- A CONNACK without a session clears the client's subscriptions but not their counts, so the two agree exactly
  if none arrives while there are subscriptions (`ReferenceCounting.AgreeExactly`). A call of unsubscribe
  then raises KeyError exactly if it names some pattern at least as often as its count, which is positive
  (`ReferenceCounting.ClearedCounts`). With a request other than a publish pending such a CONNACK makes an
  assertion fail (`Resumption.NewSessionFails`).
- A subscription that is granted with QoS 1 or 2 is not installed at the broker. The client's map keeps every
  pattern whose code is not SUCCESS until it gives the pattern up, so the two maps are equal exactly if there is
  no such pattern (`Agreement.SubscriptionAgreement`).
- A SUBSCRIBE granted late leaves the broker with a subscription the client has given up, exactly if an
  UNSUBSCRIBE of one of its patterns was processed in between (`Agreement.LateGrant`).
- A packet id collision is answered with the acknowledgement of the request's own kind exactly if the request
  is no UNSUBSCRIBE; an UNSUBSCRIBE is answered with a SUBACK, on which the client raises
  (`HandshakeRuns.CollisionAnswer`, `HandshakeRuns.CollisionHeard`).
- A broker takes a client's refusal of a packet id in use for an acknowledgement. Releasing a QoS 2 message that
  was refused raises at the client, except beside a QoS 2 message it has taken in (`HandshakeRuns.SharedId`);
  hence the assumption above that the two sides use different packet ids.
- A resumption resends everything pending as the client's own PUBLISH, also QoS 2 messages it took in and
  messages already released, unless there are none (`AutoAcknowledge.ResentIsOwn`).
- An acknowledgement that does not fit what is pending raises, and PUBACK, PUBCOMP, SUBACK and UNSUBACK remove
  the entry all the same, whatever it is (`Inbound.WronglyAcknowledged`, `Inbound.CodesArrive`). The reason codes
  of acknowledgements are never looked at (`Inbound.RightlyAcknowledged`).
- A CONNACK without a session that finds a request pending has connected the client and resent the publishes
  before that request when its assertion fails (`Inbound.AcceptedAnew`, `Lifecycle.ClientConnection`).
- Calls of the broker's application with a reason code that their packet does not allow raise too late:
  `acknowledge_connect` has disconnected by then, `acknowledge_subscribe` has installed the subscriptions it
  grants, `release_qos2_publish` has released (`Answers.ConnectAnswered`, `Answers.GrantExactly`,
  `Answers.ReleaseExactly`).
- When a call of `feed_bytes` raises, the packets it has handled are not returned, so what is returned depends
  on how the stream was cut (`Feeding.ChunksReturn`).

## Model

| member | source | states |
|---|---|---|
| `Wire.FixedRoundTrip` | src/mqttproto/_types.py:40-48 | decoding the digits of a value, with any bytes after them, gives the value and those bytes |
| `Wire.EncodeVariableInteger` | src/mqttproto/_types.py:51-61 | the loop appends exactly the base-128 digits of the value, the continuation bit on all but the last |
| `Wire.DecodeVariableInteger` | src/mqttproto/_types.py:64-73 | the accumulating loop computes the recursive meaning of the digits, without any limit on their number |
| `Wire.VarIntRoundTrip` | src/mqttproto/_types.py:51-73 | decoding inverts encoding for every natural number and any bytes after it |
| `Wire.VarIntPrefix` | src/mqttproto/_types.py:64-73 | every strict prefix of an encoded integer asks for more data |
| `Wire.VarIntStable` | src/mqttproto/_types.py:64-73 | bytes appended after a decoded integer change neither its value nor the rest before them |
| `Wire.VarIntMinimal` | src/mqttproto/_types.py:51-73 | no byte string that decodes to a value is shorter than the encoding of that value |
| `Wire.EncodeBinary` | src/mqttproto/_types.py:76-78 | appends the two-byte length and the bytes |
| `Wire.BinaryRoundTrip` | src/mqttproto/_types.py:76-86 | length-prefixed bytes come back with whatever follows them |
| `Wire.Utf8RoundTrip` | src/mqttproto/_types.py:89-103 | length-prefixed text comes back |
| `Wire.DecodeUtf8` | src/mqttproto/_types.py:95-103 | whatever is decoded is UTF-8 by RFC 3629 and shorter than 65536 bytes |
| `Properties.EncodeValueInto` | src/mqttproto/_types.py:225-317 | appends a property value in the format its kind prescribes |
| `Properties.ValueRoundTrip` | src/mqttproto/_types.py:225-317 | for each format the decoder inverts the encoder, with any suffix |
| `Properties.EncodeProperties` | src/mqttproto/_types.py:349-360 | appends the length of the block and then all entries, user properties last |
| `Properties.DecodeProperties` | src/mqttproto/_types.py:362-392 | the loop over the view computes the recursive meaning of a block, with every error in its place, and ends because each pass shrinks the view |
| `Properties.PropsRoundTrip` | src/mqttproto/_types.py:349-392 | two property maps, their entries in any order, come back equal from their block and leave what follows it alone |
| `Properties.PutKeys` | src/mqttproto/_types.py:382 | assigning a dictionary entry keeps keys distinct and changes the value of that key only |
| `Properties.PropsRange` | src/mqttproto/_types.py:363-392 | whatever block is accepted, the maps hold only allowed kinds with values the encoder can write |
| `Properties.AcceptedBlock` | src/mqttproto/_types.py:373-390 | in every accepted block non-user kinds occur once, in wire order, and the last user property with a key wins |
| `Subscriptions.JoinSplit` | src/mqttproto/_types.py:452 | joining the levels of a text with slashes gives the text back |
| `Subscriptions.SplitJoin` | src/mqttproto/_types.py:452 | splitting joined levels gives the levels back |
| `Subscriptions.FilterRule` | src/mqttproto/_types.py:451-472 | the check by levels accepts a text if and only if every '+' stands between slashes or ends of the text and every '#' is last and first or after a slash |
| `Subscriptions.CheckPattern` | src/mqttproto/_types.py:451-472 | the scanning loop raises InvalidPattern exactly on texts that break that rule by characters |
| `Subscriptions.Matches` | src/mqttproto/_types.py:514-544 | the loop over the zipped levels returns True if and only if the QoS is accepted, the levels agree up to '+', a final '#' covers what is left, and no leading wildcard takes a '$' topic |
| `Encoders.EncodeSubscriptionInto` | src/mqttproto/_types.py:503-512 | appends the pattern and the option bits of a subscription |
| `Encoders.EncodeSubscriptionList` | src/mqttproto/_types.py:1190-1191 | the loop appends the encodings of all subscriptions in order |
| `Encoders.EncodePatternList` | src/mqttproto/_types.py:1311-1312 | the loop appends the patterns of an UNSUBSCRIBE in order |
| `Encoders.EncodeCodeList` | src/mqttproto/_types.py:1258-1259 | the loop appends one byte per reason code, in order |
| `Encoders.GatherFlags` | src/mqttproto/_types.py:676-690 | the flag accumulation yields the sum of the bits that apply |
| `Encoders.EncodeConnectInto` | src/mqttproto/_types.py:692-713 | appends protocol name, version, flags, keep-alive, properties and payload of a CONNECT in this order |
| `Encoders.EncodePublishInto` | src/mqttproto/_types.py:878-892 | appends topic, packet id if there is one, properties and payload |
| `Encoders.EncodeIdBodyInto` | src/mqttproto/_types.py:951-958 | appends the bodies that start with a packet id: the four acknowledgements, SUBSCRIBE, SUBACK, UNSUBSCRIBE and UNSUBACK |
| `Encoders.EncodeFixedHeader` | src/mqttproto/_types.py:561-567 | appends packet type and flags in one byte, the length of the payload, and the payload |
| `Encoders.EncodePacket` | src/mqttproto/_types.py:561-576 | for every packet type, appends exactly its frame |
| `Decoding.DecodeSubscriptionList` | src/mqttproto/_types.py:1170-1173 | the loop computes the recursive meaning of a list of subscriptions, or its first error |
| `Decoding.DecodeCodeList` | src/mqttproto/_types.py:1238-1241 | the loop computes the recursive meaning of a list of reason codes, or its first error |
| `Decoding.DecodePatternList` | src/mqttproto/_types.py:1291-1294 | the loop computes the recursive meaning of a list of patterns, or its first error |
| `RoundTrip.SettleSame` | src/mqttproto/_types.py:836-837 | popping the payload format indicator when decoding and setting it again on construction leaves the same dictionary |
| `RoundTrip.ConnectRoundTrip` | src/mqttproto/_types.py:614-715 | the body of a CONNECT, with or without a Will, comes back |
| `RoundTrip.ConnAckRoundTrip` | src/mqttproto/_types.py:778-798 | the body of a CONNACK comes back |
| `RoundTrip.PublishRoundTrip` | src/mqttproto/_types.py:839-896 | the body of a PUBLISH comes back, and its flags through the first byte |
| `RoundTrip.AckRoundTrip` | src/mqttproto/_types.py:929-961 | the body of each of the four acknowledgements comes back; they differ only in allowed codes and reserved bits |
| `RoundTrip.SubscriptionRoundTrip` | src/mqttproto/_types.py:487-512 | a subscription and all its options come back |
| `RoundTrip.SubscribeRoundTrip` | src/mqttproto/_types.py:1161-1193 | the body of a SUBSCRIBE comes back |
| `RoundTrip.CodesPacketRoundTrip` | src/mqttproto/_types.py:1229-1262 | the bodies of SUBACK and UNSUBACK come back |
| `RoundTrip.UnsubscribeRoundTrip` | src/mqttproto/_types.py:1282-1315 | the body of an UNSUBSCRIBE comes back |
| `RoundTrip.PacketRoundTrip` | src/mqttproto/_types.py:1542-1588 | decoding an encoded packet that is safe for the wire, whatever bytes follow, yields those bytes and the packet, its dictionaries equal as dictionaries |
| `Range.PacketRange` | src/mqttproto/_types.py:1542-1588 | every packet that arbitrary bytes decode to is well formed and safe for the wire |
| `Range.DecodeEncodeDecode` | src/mqttproto/_types.py:1542-1588 | for arbitrary accepted bytes, encoding the packet and decoding again yields exactly that packet |
| `Range.RoundTripIff` | src/mqttproto/_types.py:1542-1588 | the round trip holds if and only if property kinds are allowed ones, no user property stands among the ordinary properties, a packet id is present exactly with QoS above 0, and no payload format indicator stands beside a binary payload |
| `Range.UnsafeMessage` | src/mqttproto/_types.py:832-837 | a QoS 0 message constructed with a packet id can be encoded and does not come back |
| `Range.MisplacedProperty` | src/mqttproto/_types.py:346-357 | a user property among the ordinary properties can be encoded and comes back among the user properties |
| `Framing.InsufficientExactly` | src/mqttproto/_types.py:1545-1588 | InsufficientData is raised if and only if fewer than two bytes are there, or the first one names a type and no complete frame has arrived; a short body inside a complete frame never is |
| `Framing.PacketStable` | src/mqttproto/_types.py:1542-1588 | once a frame decodes or fails for good, appended bytes change nothing |
| `Framing.OneFrame` | src/mqttproto/_types.py:1566-1588 | a complete frame is consumed exactly, and the bytes behind it affect neither the packet nor the error |
| `Framing.StrictPrefix` | src/mqttproto/_types.py:1545-1567 | every strict prefix of an encoded packet asks for more data |
| `Framing.CompleteFrame` | src/mqttproto/_types.py:1566-1581 | no complete encoded packet asks for more data |
| `Framing.PrefixFree` | src/mqttproto/_types.py:1542-1588 | no encoded packet is a proper prefix of another, and one encoding stands for one packet |
| `Framing.ListRoundTrip` | src/mqttproto/_types.py:1542-1588 | the concatenated encodings of any list of packets decode to that list |
| `SessionFacts.HandleValid` | src/mqttproto/_base_client_state_machine.py:70-166 | handling any decoded packet, even if it raises, keeps the table a dictionary of well-formed packets and sends only packets that can be encoded |
| `SessionFacts.ResendValid` | src/mqttproto/client_state_machine.py:89-94 | resending keeps the table valid and sends well-formed packets |
| `SessionFacts.OnlyPublishesMeans` | src/mqttproto/client_state_machine.py:59-63 | the comprehension of a reset keeps exactly the publishes |
| `SessionFacts.ClientPublishValid` | src/mqttproto/client_state_machine.py:149-180 | publish keeps the table valid and sends well-formed packets |
| `SessionFacts.ClientSubscribeValid` | src/mqttproto/client_state_machine.py:189-219 | subscribe keeps the table valid and sends well-formed packets |
| `SessionFacts.ClientUnsubscribeValid` | src/mqttproto/client_state_machine.py:221-251 | unsubscribe keeps the table valid and sends well-formed packets |
| `SessionFacts.DeliverPublishValid` | src/mqttproto/broker_state_machine.py:163-182 | deliver_publish keeps the table valid and sends well-formed packets |
| `SessionFacts.AcknowledgeSubscribeValid` | src/mqttproto/broker_state_machine.py:207-240 | acknowledge_subscribe keeps the table valid, installs only valid filters, each under its own pattern, and sends well-formed packets |
| `StateMachine.SessionStateMachine.constructor` | src/mqttproto/_base_client_state_machine.py:44-58 | a new session is disconnected, with empty buffers and table and 1 as its next packet id |
| `StateMachine.SessionStateMachine.GetOutboundData` | src/mqttproto/_base_client_state_machine.py:257-267 | hands out the outbound buffer itself and leaves a new empty one |
| `StateMachine.SessionStateMachine.AddPendingPacket` | src/mqttproto/_base_client_state_machine.py:193-236 | adds an entry last if its packet id is free; if not, leaves the table and appends the reply that reports the id in use |
| `StateMachine.SessionStateMachine.AcknowledgePublish` | src/mqttproto/_base_client_state_machine.py:305-323 | session and outbound bytes after acknowledging, including what an exception leaves behind |
| `StateMachine.SessionStateMachine.ReleasePublish` | src/mqttproto/_base_client_state_machine.py:325-351 | the same for releasing a QoS 2 message |
| `StateMachine.SessionStateMachine.CompletePublish` | src/mqttproto/_base_client_state_machine.py:353-375 | the same for completing a QoS 2 message |
| `StateMachine.SessionStateMachine.HandlePublish` | src/mqttproto/_base_client_state_machine.py:71-77 | the same for an inbound PUBLISH; clients acknowledge at once unless the packet id is 0 |
| `StateMachine.SessionStateMachine.HandlePubAck` | src/mqttproto/_base_client_state_machine.py:78-85 | the same for PUBACK, which removes the entry before it checks the QoS |
| `StateMachine.SessionStateMachine.HandlePubRec` | src/mqttproto/_base_client_state_machine.py:86-110 | the same for PUBREC, answered at once by clients and for unknown packet ids |
| `StateMachine.SessionStateMachine.HandlePubRel` | src/mqttproto/_base_client_state_machine.py:111-135 | the same for PUBREL, answered at once by clients and for unknown packet ids |
| `StateMachine.SessionStateMachine.HandlePubComp` | src/mqttproto/_base_client_state_machine.py:136-155 | the same for PUBCOMP, an error unless a released message is pending |
| `StateMachine.SessionStateMachine.HandlePacket` | src/mqttproto/_base_client_state_machine.py:70-166 | dispatch by packet type and role: the new session, the appended bytes and the exception are those of the step function |
| `StateMachine.SessionStateMachine.HandleConnAck` | src/mqttproto/client_state_machine.py:72-96 | a successful CONNACK connects, resets and resends; any other disconnects |
| `StateMachine.SessionStateMachine.ResendPending` | src/mqttproto/client_state_machine.py:89-94 | the loop marks every pending publish as a duplicate and appends its encoding, in order, up to an assertion that fails |
| `StateMachine.SessionStateMachine.HandleCodes` | src/mqttproto/client_state_machine.py:100-105 | SUBACK and UNSUBACK remove the request they answer, and raise if the entry is another kind |
| `StateMachine.SessionStateMachine.HandleClientPacket` | src/mqttproto/client_state_machine.py:68-114 | dispatch of the packets only clients handle |
| `StateMachine.SessionStateMachine.HandleSubscribe` | src/mqttproto/broker_state_machine.py:130-133 | a SUBSCRIBE waits in the table for its acknowledgement |
| `StateMachine.SessionStateMachine.DeletePatterns` | src/mqttproto/broker_state_machine.py:139-146 | the loop deletes the patterns and reports for each whether it was there when its turn came |
| `StateMachine.SessionStateMachine.HandleUnsubscribe` | src/mqttproto/broker_state_machine.py:134-150 | an UNSUBSCRIBE is answered at once and stays in the table |
| `StateMachine.SessionStateMachine.HandleBrokerPacket` | src/mqttproto/broker_state_machine.py:123-161 | dispatch of the packets only broker sessions handle |
| `StateMachine.SessionStateMachine.FeedBytes` | src/mqttproto/_base_client_state_machine.py:269-303 | the loop handles exactly the complete packets of buffer and data; on an exception it returns none and leaves the buffer uncut |
| `StateMachine.SessionStateMachine.SendRequest` | src/mqttproto/client_state_machine.py:176-178 | encode a request, then enter it in the table or report its packet id in use |
| `StateMachine.SessionStateMachine.Publish` | src/mqttproto/client_state_machine.py:149-180 | the state after publish, a topic too long for its length field included, and the packet id it returns |
| `StateMachine.SessionStateMachine.CountEach` | src/mqttproto/client_state_machine.py:202-209 | the loop of subscribe updates both maps and collects the subscriptions that are new |
| `StateMachine.SessionStateMachine.Subscribe` | src/mqttproto/client_state_machine.py:189-219 | one SUBSCRIBE for the new subscriptions and its packet id, or none |
| `StateMachine.SessionStateMachine.UncountEach` | src/mqttproto/client_state_machine.py:234-241 | the loop of unsubscribe updates both maps, collects the patterns whose count ends, and raises KeyError for a stale count |
| `StateMachine.SessionStateMachine.Unsubscribe` | src/mqttproto/client_state_machine.py:221-251 | one UNSUBSCRIBE for the patterns whose count ends and its packet id, or none |
| `StateMachine.SessionStateMachine.Connect` | src/mqttproto/client_state_machine.py:116-135 | CONNECT goes out only from the disconnected state, and only if its texts and its keep-alive interval fit their fields |
| `StateMachine.SessionStateMachine.Disconnect` | src/mqttproto/client_state_machine.py:137-141 | DISCONNECT goes out only from the connected state |
| `StateMachine.SessionStateMachine.Ping` | src/mqttproto/client_state_machine.py:143-147 | so does PINGREQ |
| `StateMachine.SessionStateMachine.AcknowledgeConnect` | src/mqttproto/broker_state_machine.py:184-205 | CONNACK goes out and success connects |
| `StateMachine.SessionStateMachine.DeliverPublish` | src/mqttproto/broker_state_machine.py:163-182 | the loop over the subscriptions returns True if and only if one matches and is not excluded by no_local; then one copy goes out and is entered in the table |
| `StateMachine.SessionStateMachine.InstallEach` | src/mqttproto/broker_state_machine.py:233-236 | the loop installs exactly the subscriptions with code SUCCESS, later ones over earlier ones |
| `StateMachine.SessionStateMachine.AcknowledgeSubscribe` | src/mqttproto/broker_state_machine.py:207-240 | the request is removed, its granted subscriptions installed and SUBACK sent, or what the exceptions leave behind |
| `Feeding.ChunkingInvariance` | src/mqttproto/_base_client_state_machine.py:269-303 | every way of cutting a byte stream into chunks handles the same packets and gives the same session, sent packets and remaining bytes as feeding it at once, and raises the same exception at the same packet |
| `Feeding.ChunksReturn` | src/mqttproto/_base_client_state_machine.py:281-303 | the calls return the same packets in both ways if nothing raises; if something does, feeding at once returns nothing and feeding in chunks has returned the first of the packets handled |
| `Feeding.DrainSplit` | src/mqttproto/_base_client_state_machine.py:284-296 | feeding a buffer whose tail comes later equals feeding both in turn |
| `Feeding.RestIsPartial` | src/mqttproto/_base_client_state_machine.py:298-301 | what a feeding keeps for later holds no complete frame, whatever the session |
| `Feeding.FeedEncoded` | src/mqttproto/_base_client_state_machine.py:269-303 | feeding encoded packets and the beginning of another is handling those packets one by one |
| `Feeding.StreamOfPackets` | src/mqttproto/_base_client_state_machine.py:269-303 | of a stream of encoded packets that has arrived in part, in any chunks, exactly the complete packets have been handled, in order |
| `Feeding.DrainValid` | src/mqttproto/_base_client_state_machine.py:269-303 | feeding arbitrary bytes keeps the table a dictionary of well-formed packets and all pending and installed filters valid, and sends only well-formed packets |
| `Handshake.InitialInv` | src/mqttproto/_base_client_state_machine.py:53-57 | the invariant of the joint state holds on connection |
| `HandshakeSteps.PublishStep` | src/mqttproto/client_state_machine.py:149-180 | a publish of the client keeps the joint invariant |
| `HandshakeSteps.SubscribeStep` | src/mqttproto/client_state_machine.py:189-219 | a subscribe call keeps the joint invariant |
| `HandshakeSteps.UnsubscribeStep` | src/mqttproto/client_state_machine.py:221-251 | an unsubscribe call keeps the joint invariant, and never raises |
| `HandshakeSteps.DeliverStep` | src/mqttproto/broker_state_machine.py:163-182 | a delivery by the broker keeps the joint invariant |
| `HandshakeSteps.ReceiveUpStep` | src/mqttproto/_base_client_state_machine.py:70-155 | the broker handles the next packet, whichever it is, without an exception, and the joint invariant stays |
| `HandshakeSteps.ReceiveDownStep` | src/mqttproto/_base_client_state_machine.py:70-155 | the client handles the next packet, whichever it is, without an exception, and the joint invariant stays |
| `HandshakeSteps.AcknowledgeStep` | src/mqttproto/_base_client_state_machine.py:305-323 | the broker application acknowledging a surfaced message never raises and keeps the joint invariant |
| `HandshakeSteps.ReleaseStep` | src/mqttproto/_base_client_state_machine.py:325-351 | releasing one never raises and keeps the joint invariant |
| `HandshakeSteps.CompleteStep` | src/mqttproto/_base_client_state_machine.py:353-375 | completing one never raises and keeps the joint invariant |
| `HandshakeSteps.GrantStep` | src/mqttproto/broker_state_machine.py:207-240 | granting or rejecting a SUBSCRIBE, code by code, never raises and keeps the joint invariant |
| `HandshakeSteps.Step` | src/mqttproto/_base_client_state_machine.py:70-166 | every action of callers, channels and application keeps the joint invariant: each packet id is in one legal phase of its exchange |
| `HandshakeSteps.ClientAnswers` | src/mqttproto/_base_client_state_machine.py:71-77 | a client takes a new message in and acknowledges it at once: PUBACK for QoS 1, which it then forgets, PUBREC for QoS 2 |
| `HandshakeSteps.BrokerKeeps` | src/mqttproto/_base_client_state_machine.py:71-77 | a broker keeps a new message unacknowledged and says nothing |
| `HandshakeSteps.BrokerMarks` | src/mqttproto/_base_client_state_machine.py:86-135 | a broker marks PUBREC and PUBREL in the table and leaves the answer to its application |
| `HandshakeSteps.ClientMovesOn` | src/mqttproto/_base_client_state_machine.py:86-135 | a client answers PUBREC with PUBREL and PUBREL with PUBCOMP at once |
| `HandshakeSteps.AckRetires` | src/mqttproto/_base_client_state_machine.py:78-85 | PUBACK and PUBCOMP retire the message they answer, and nothing else |
| `HandshakeSteps.ClientRetires` | src/mqttproto/client_state_machine.py:100-105 | SUBACK and UNSUBACK retire the request they answer, and nothing else |
| `HandshakeSteps.BrokerAnswers` | src/mqttproto/broker_state_machine.py:134-150 | an UNSUBSCRIBE is answered at once, with one code per pattern, and stays in the table |
| `HandshakeSteps.BrokerGrants` | src/mqttproto/broker_state_machine.py:219-240 | any answer to a SUBSCRIBE with one allowed code per subscription retires it with a SUBACK |
| `HandshakeSteps.CountUpOk` | src/mqttproto/client_state_machine.py:201-209 | counting up keeps exactly the patterns counted at least once in the map |
| `HandshakeSteps.CountDownOk` | src/mqttproto/client_state_machine.py:233-241 | counting down keeps exactly the patterns counted at least once in the map, and finds every subscription it deletes |
| `HandshakeRuns.HandshakeSafety` | src/mqttproto/_base_client_state_machine.py:70-155 | in every run no step raises, every packet id is in a legal phase, and no packet in flight reports an id in use |
| `HandshakeRuns.NoneInUse` | src/mqttproto/_base_client_state_machine.py:193-234 | in a legal joint state no packet in flight reports a packet id in use |
| `HandshakeRuns.FreeAtSender` | src/mqttproto/_base_client_state_machine.py:193-236 | an id that is free at its sender is free at the receiver with nothing in flight, if and only if the client never used it for an UNSUBSCRIBE |
| `HandshakeRuns.SpentIdRefused` | src/mqttproto/broker_state_machine.py:134-150 | a message under a free id of the client is refused as in use if and only if the id was used for an UNSUBSCRIBE, whose entry the broker never drops |
| `HandshakeRuns.ProgressDecreases` | src/mqttproto/_base_client_state_machine.py:70-155 | every delivery and every answer of the application lowers a rank |
| `HandshakeRuns.ProgressEnds` | src/mqttproto/_base_client_state_machine.py:70-155 | so a run of deliveries and answers has at most as many steps as the rank |
| `HandshakeRuns.QuiescentIsDone` | src/mqttproto/_base_client_state_machine.py:70-155 | when none is left, channels and the client table are empty, the broker table holds only answered UNSUBSCRIBE requests, and every message has been returned by feed_bytes exactly once, in order |
| `HandshakeRuns.SurfacedInOrder` | src/mqttproto/_base_client_state_machine.py:283-296 | in every run the messages that feed_bytes returns, which is none if handling raises, are those the callers asked for, in order, without those in flight |
| `HandshakeRuns.MessageUpIsNew` | src/mqttproto/_base_client_state_machine.py:71-74 | a message the broker receives is never refused as a repetition: it enters the table as new |
| `HandshakeRuns.MessageDownIsNew` | src/mqttproto/_base_client_state_machine.py:71-77 | a message the client receives is never refused as a repetition: it is acknowledged with success |
| `HandshakeRuns.CollisionAnswer` | src/mqttproto/_base_client_state_machine.py:206-234 | a request under a packet id in use, also a message at a client, changes nothing and is answered with the acknowledgement of its own kind if and only if it is no UNSUBSCRIBE |
| `HandshakeRuns.CollisionHeard` | src/mqttproto/client_state_machine.py:100-105 | the client that made the request handles that answer without an exception if and only if it is no UNSUBSCRIBE |
| `HandshakeRuns.SharedId` | src/mqttproto/_base_client_state_machine.py:78-141 | a message under a packet id the client has pending is refused, the broker takes the refusal for an acknowledgement, and the PUBREL for a QoS 2 message raises at the client unless its entry is an acknowledged QoS 2 message |
| `Transport.DeliveriesUp` | src/mqttproto/_base_client_state_machine.py:283-303 | k deliveries to the broker are feeding it k packets; feed_bytes returns exactly these |
| `Transport.DeliveriesDown` | src/mqttproto/_base_client_state_machine.py:283-303 | k deliveries to the client are feeding it k packets; feed_bytes returns exactly these |
| `Transport.BytesRefine` | src/mqttproto/_base_client_state_machine.py:269-303 | with bytes in flight instead of packets, cut and delayed in any way, every run of client, broker and application is a run of the joint model |
| `Transport.ReturnedExactlyOnce` | src/mqttproto/_base_client_state_machine.py:269-303 | in every such run nothing raises, and the messages among all packets that feed_bytes has returned are those that the callers of publish and deliver_publish asked for, argument by argument, in order and each once, without those whose bytes have not arrived completely |
| `HandshakeRuns.FreshAtFirst` | src/mqttproto/_base_client_state_machine.py:168-174 | while the client has taken at most 65534 packet ids in a connection the next one is fresh, unless it is reserved for the broker |
| `HandshakeRuns.Connection` | src/mqttproto/client_state_machine.py:116-135 | CONNECT and CONNACK of two new sessions lead to the initial joint states, unless a text or the keep-alive interval is too large to be encoded |
| `Agreement.AccountStep` | src/mqttproto/broker_state_machine.py:130-150 | the map of the broker together with the subscriptions that wait for their answer changes only when a packet reaches the broker, by replaying it, and when an answer refuses patterns, by just these |
| `Agreement.AheadStep` | src/mqttproto/client_state_machine.py:200-251 | the map of the client is always what the requests in flight will make of the replay of those that have arrived, and each SUBSCRIBE in flight names different patterns, all new to it |
| `Agreement.SubscriptionAgreement` | src/mqttproto/broker_state_machine.py:207-240 | in every run in which no UNSUBSCRIBE is processed while a SUBSCRIBE of one of its patterns waits, with answers of any codes: whenever none waits, the map of the broker is the replay of the packets that have arrived, without the patterns refused and not given up since; with no request in flight it equals the map of the client, options included, if and only if there are no such patterns |
| `Agreement.InstallMeans` | src/mqttproto/broker_state_machine.py:233-236 | an answer installs exactly the subscriptions of the request whose code is SUCCESS |
| `Agreement.PromptIsCareful` | src/mqttproto/broker_state_machine.py:207-240 | answering each SUBSCRIBE before the next packet is processed is one way to do so |
| `Agreement.LateGrant` | src/mqttproto/broker_state_machine.py:233-236 | a SUBSCRIBE that is granted after any other packets have been processed leaves the broker with the map it would have after granting first and then processing them, if and only if no UNSUBSCRIBE among them names one of its patterns; granting first raises nothing either |
| `Agreement.LateGrantWitness` | src/mqttproto/broker_state_machine.py:233-236 | the simplest failure: the broker keeps a subscription the client has given up |
| `Agreement.CountUpInstalls` | src/mqttproto/client_state_machine.py:202-209 | the new map of subscribe is the old one with the requested new subscriptions installed |
| `Agreement.CountDownRemoves` | src/mqttproto/client_state_machine.py:234-241 | the new map of unsubscribe is the old one without the patterns it requests to remove |
| `AutoAcknowledge.RoleInvariant` | src/mqttproto/_base_client_state_machine.py:71-155 | in every run of calls, which may raise, and arbitrary inbound bytes, through any number of connections: own QoS 2 messages are unacknowledged or released, those taken in are acknowledged, none of QoS 1 taken in is pending; one PUBREL has gone out per own exchange no longer unacknowledged, one PUBREC per message taken in, and one PUBCOMP per such message no longer pending |
| `AutoAcknowledge.PacketHandled` | src/mqttproto/_base_client_state_machine.py:70-166 | every inbound packet that raises nothing keeps that invariant and the balance of acknowledgements |
| `AutoAcknowledge.AckAnswered` | src/mqttproto/_base_client_state_machine.py:78-155 | what a client does to an entry on each acknowledgement, and what it answers |
| `AutoAcknowledge.ConnAckHandled` | src/mqttproto/client_state_machine.py:72-96 | a CONNACK, with or without a session, keeps the invariant |
| `AutoAcknowledge.RequestHandled` | src/mqttproto/_base_client_state_machine.py:193-236 | a request keeps it, even if its packet id is in use |
| `AutoAcknowledge.RaisingCall` | src/mqttproto/client_state_machine.py:149-251 | a call that raises sends nothing and leaves the table alone, and one made in the wrong state changes nothing |
| `AutoAcknowledge.FeedReceives` | src/mqttproto/_base_client_state_machine.py:269-303 | feeding arbitrary bytes is receiving the packets they complete, one by one |
| `AutoAcknowledge.ResentIsOwn` | src/mqttproto/client_state_machine.py:89-94 | everything a resumption resends is the client's own and unacknowledged if and only if no entry is acknowledged or released and none was taken in under packet id 0 |
| `AutoAcknowledge.PubRecAccepted` | src/mqttproto/_base_client_state_machine.py:98-102 | a PUBREC raises nothing if and only if the QoS 2 message is unacknowledged, so the one to a resent released message raises |
| `AutoAcknowledge.ZeroIsNotAnswered` | src/mqttproto/_base_client_state_machine.py:76-77 | a client answers a message by itself if and only if its packet id is not 0; a message under 0 stays pending, unacknowledged |
| `ReferenceCounting.CountsRefineCounter` | src/mqttproto/client_state_machine.py:201-251 | over every run without a clearing reset, also after calls that raise, the positive part of a count is a counter that stops at 0, a pattern is in the map if and only if it is not 0, no packet sent names a pattern twice, and, if no new pattern is overlong, the requests on the wire that name it alternate, SUBSCRIBE first |
| `ReferenceCounting.CountUpRequests` | src/mqttproto/client_state_machine.py:202-209 | a call requests a pattern exactly if it enters the map, and names it once |
| `ReferenceCounting.CountDownTallies` | src/mqttproto/client_state_machine.py:234-241 | a call gives up a pattern exactly if it leaves the map, and names it once |
| `ReferenceCounting.TurnsExactly` | src/mqttproto/client_state_machine.py:201-251 | at every moment and for every pattern the requests sent alternate and end with what the map says, if and only if the client never subscribes to a new pattern of 65536 bytes or more |
| `ReferenceCounting.OverlongSubscribe` | src/mqttproto/client_state_machine.py:202-217 | such a call raises, sends nothing, and leaves the pattern in the map |
| `ReferenceCounting.UnsubscribeFirst` | src/mqttproto/client_state_machine.py:201-251 | the simplest failure: subscribing to a short and an overlong pattern and giving up the short one sends an UNSUBSCRIBE first |
| `ReferenceCounting.AgreeExactly` | src/mqttproto/client_state_machine.py:64-66 | counts and subscriptions agree at every moment if and only if no CONNACK without a session arrives while there are subscriptions |
| `ReferenceCounting.ReceivedNoRequests` | src/mqttproto/client_state_machine.py:68-114 | received packets never change the counts, and change the map only when a CONNACK without a session clears it |
| `ReferenceCounting.KeyErrorExactly` | src/mqttproto/client_state_machine.py:234-241 | for all maps the loop of unsubscribe raises KeyError if and only if it uses up the count of a pattern without a subscription |
| `ReferenceCounting.AgreeingCounts` | src/mqttproto/client_state_machine.py:234-241 | it never does while counts and subscriptions agree |
| `ReferenceCounting.ClearedCounts` | src/mqttproto/client_state_machine.py:64-66 | after such a reset unsubscribe raises KeyError if and only if the call names some pattern at least as often as its count, which is positive |
| `PacketIds.NthIdIs` | src/mqttproto/_base_client_state_machine.py:168-174 | the id handed out after n others is n modulo 65535, plus 1 |
| `PacketIds.AnyWindow` | src/mqttproto/_base_client_state_machine.py:168-174 | any 65535 ids in a row are those from 1 to 65535, each once |
| `PacketIds.CallTakes` | src/mqttproto/_base_client_state_machine.py:168-174 | a call, even one that raises, takes the next packet id or leaves counter and table alone |
| `PacketIds.NextIdFree` | src/mqttproto/_base_client_state_machine.py:168-174 | in every run without a reset of the counter, also after calls that raise, the next id belongs to a pending entry of the client if and only if one is a multiple of 65535 ids old; it is free if no entry came from the broker and all are younger |
| `PacketIds.EntersIfFree` | src/mqttproto/_base_client_state_machine.py:193-236 | a call enters its request and sends just that if the id is free; if not, the table stays and a report of the id in use goes out too |
| `Resumption.ResetKeeps` | src/mqttproto/client_state_machine.py:57-63 | with a session present exactly the publishes stay in the table, unchanged and in their order |
| `Resumption.ResumptionKeeps` | src/mqttproto/client_state_machine.py:56-63 | on a CONNACK with a session present exactly the publishes stay, with ids, QoS 2 progress and order, each marked as a duplicate and sent once |
| `Resumption.ResumptionConserves` | src/mqttproto/client_state_machine.py:72-94 | the outbound bytes of a resumption decode to exactly those publishes, in order, with the duplicate flag |
| `Resumption.NewSessionFails` | src/mqttproto/client_state_machine.py:89-92 | without a session the connection succeeds if and only if nothing but publishes is pending; else the assertion fails |
| `BrokerStateMachine.Broker.AddClientSession` | src/mqttproto/broker_state_machine.py:41-45 | registers a session under its client id; a known id keeps its place |
| `BrokerStateMachine.RetainedIsLast` | src/mqttproto/broker_state_machine.py:94-98 | after any history the store holds for a topic the last message to be retained there, and nothing if that was empty or there was none |
| `BrokerStateMachine.FanOut` | src/mqttproto/broker_state_machine.py:100-105 | the loop serves the sessions one after the other up to the first that raises, and collects the ids of those that accept |
| `BrokerStateMachine.Broker.DeliverInOrder` | src/mqttproto/broker_state_machine.py:100-105 | every registered session is served in order up to the first that is not connected; the recipients are exactly those that accept the message |
| `BrokerStateMachine.Broker.Publish` | src/mqttproto/broker_state_machine.py:83-105 | the recipients are exactly the sessions that accept the message; a QoS 0 message is appended once to the output of each and of no other; the call raises if and only if a session is not connected, after serving those before it |
| `BrokerStateMachine.DeliverMeans` | src/mqttproto/broker_state_machine.py:163-182 | delivery to a session raises exactly if it is not connected, and a QoS 0 message changes nothing but the output |
| `Grammar.VarIntMeans` | src/mqttproto/_types.py:64-73 | an integer is read off the front exactly if digits of base 128 for it stand there, all but the last with their high bit set |
| `Grammar.TwoMeans` | src/mqttproto/_types.py:44-48 | two bytes are read as a number exactly if they are its quotient and remainder by 256 |
| `Grammar.TextMeans` | src/mqttproto/_types.py:95-103 | a text is read exactly if its length in two bytes and then the text stand there, and it is UTF-8 |
| `Grammar.FormatMeans` | src/mqttproto/_types.py:225-317 | the table of property kinds, number by number: which exist, and how many bytes their values have |
| `Grammar.ValueMeans` | src/mqttproto/_types.py:225-317 | a property value is decoded exactly from the bytes that stand for it |
| `Grammar.PropsMeans` | src/mqttproto/_types.py:362-392 | two dictionaries are decoded exactly from a block that denotes them: a length, then entries of allowed kinds, no ordinary one twice, the last value of a user property winning |
| `Utf8.ValidExactly` | src/mqttproto/_types.py:89-103 | bytes are accepted as text if and only if they encode a string of Unicode scalar values |
| `Accepted.AcceptedExactly` | src/mqttproto/_types.py:1542-1588 | decode_packet yields a packet and the bytes behind it if and only if the data begin with a frame whose body stands for that packet, by a grammar written out in bytes |
| `Accepted.HeadNeeded` | src/mqttproto/_types.py:614-628 | a body decodes as a CONNECT only if it begins with 00 04 4D 51 54 54 05, a byte of flags, and a keep-alive interval in two bytes |
| `Accepted.ConnectMeans` | src/mqttproto/_types.py:614-671 | exactly which bodies stand for which CONNECT, flag by flag |
| `Accepted.ConnAckMeans` | src/mqttproto/_types.py:778-790 | exactly which bodies stand for which CONNACK; all flags but the lowest are ignored |
| `Accepted.PublishMeans` | src/mqttproto/_types.py:839-876 | exactly which flags and bodies stand for which PUBLISH |
| `Accepted.AckMeans` | src/mqttproto/_types.py:929-949 | exactly which bodies stand for which acknowledgement, with reason code and block, without a block, or without both |
| `Accepted.SubscribeMeans` | src/mqttproto/_types.py:1161-1180 | exactly which bodies stand for which SUBSCRIBE |
| `Accepted.SubscriptionMeans` | src/mqttproto/_types.py:487-501 | exactly which bytes stand for which subscription, option bit by option bit |
| `Accepted.CodesPacketMeans` | src/mqttproto/_types.py:1229-1248 | exactly which bodies stand for which SUBACK or UNSUBACK |
| `Accepted.UnsubscribeMeans` | src/mqttproto/_types.py:1282-1301 | exactly which bodies stand for which UNSUBSCRIBE; its patterns need not be filters |
| `Accepted.DisconnectMeans` | src/mqttproto/_types.py:1463-1481 | exactly which bodies stand for which DISCONNECT, also without a block or without both |
| `Accepted.AuthMeans` | src/mqttproto/_types.py:1519-1529 | exactly which bodies stand for which AUTH |
| `Accepted.CodeTables` | src/mqttproto/_types.py:910-922 | which reason codes each packet type may carry, code by code |
| `Accepted.ShortAck` | src/mqttproto/_types.py:929-949 | an acknowledgement of two bytes reports success without properties, whatever follows it |
| `Accepted.CodedAck` | src/mqttproto/_types.py:929-949 | one of three bytes carries its code, and is accepted if and only if the code is allowed |
| `Accepted.EmptyDisconnect` | src/mqttproto/_types.py:1463-1481 | an empty DISCONNECT reports success |
| `Accepted.CodedDisconnect` | src/mqttproto/_types.py:1463-1481 | one of a single byte carries its code, and is accepted if and only if the code is allowed |
| `Refused.NoType` | src/mqttproto/_types.py:1548-1556 | packet type 0 raises a protocol error, before the length is looked at |
| `Refused.ReservedBits` | src/mqttproto/_types.py:1570-1574 | wrong reserved bits raise a protocol error, whatever the body |
| `Refused.NoId` | src/mqttproto/_types.py:1576-1582 | a body too short for its packet id is no incomplete frame but a RuntimeError |
| `Refused.PingBody` | src/mqttproto/_types.py:1584-1587 | a PINGREQ or PINGRESP with a body raises a decoding error |
| `Refused.AckExtra` | src/mqttproto/_types.py:1584-1587 | so does an acknowledgement with bytes behind its properties |
| `Refused.WrongName` | src/mqttproto/_types.py:618-621 | a CONNECT with any other protocol name raises a protocol error |
| `Refused.WrongVersion` | src/mqttproto/_types.py:623-625 | so does one with any other version |
| `Refused.BadTopic` | src/mqttproto/_types.py:839-848 | a topic that is not UTF-8 raises a decoding error |
| `Refused.BadPattern` | src/mqttproto/_types.py:1283-1301 | so does a pattern of an UNSUBSCRIBE that is not UTF-8 |
| `Refused.BadPayload` | src/mqttproto/_types.py:839-876 | so does a payload that is announced as text and is not UTF-8 |
| `Refused.QosThree` | src/mqttproto/_types.py:839-848 | so does QoS 3 |
| `Refused.ConnAckCode` | src/mqttproto/_types.py:396-407 | a code that is none for a CONNACK raises a decoding error |
| `Refused.AuthCode` | src/mqttproto/_types.py:396-407 | so does one that is none for an AUTH |
| `Refused.CodesRefused` | src/mqttproto/_types.py:396-407 | the first code of a list that is not allowed raises a decoding error |
| `Refused.EntryRefused` | src/mqttproto/_types.py:368-390 | the first property that is unknown, not allowed, or an ordinary one there already decides how its block is refused |
| `Refused.BlockTooLong` | src/mqttproto/_types.py:363-370 | a block that promises more bytes than there are asks for more |
| `Refused.EmptySubscribe` | src/mqttproto/_types.py:1141-1180 | a SUBSCRIBE without subscriptions raises a protocol error |
| `Refused.EmptyUnsubscribe` | src/mqttproto/_types.py:1266-1301 | so does an UNSUBSCRIBE without patterns |
| `Refused.BadSubscription` | src/mqttproto/_types.py:487-501 | QoS 3 and retain handling 3 are refused before the filter is looked at, and a bad filter raises InvalidPattern |
| `Refused.RefusedBody` | src/mqttproto/_types.py:1576-1582 | the error of a body is the error of its frame, except that a body that asks for more data is a RuntimeError |
| `Refused.ValueRefused` | src/mqttproto/_types.py:379-381 | the first property value that cannot be decoded decides with its own error |
| `Refused.BlockRefused` | src/mqttproto/_types.py:368-390 | the error of its entries is the error of a block |
| `Refused.SubscriptionsRefused` | src/mqttproto/_types.py:1170-1173 | the first subscription that is refused decides about a list |
| `Refused.PatternsRefused` | src/mqttproto/_types.py:1291-1294 | so does the first pattern |
| `Refused.RequestBlockRefused` | src/mqttproto/_types.py:1161-1180 | behind the packet id of SUBSCRIBE, UNSUBSCRIBE, SUBACK and UNSUBACK, the block decides |
| `Refused.ListRefused` | src/mqttproto/_types.py:1161-1180 | and behind the block the list |
| `Refused.AckBlockRefused` | src/mqttproto/_types.py:929-949 | behind an allowed code of an acknowledgement, the block decides |
| `Refused.LastBlockRefused` | src/mqttproto/_types.py:1463-1481 | so it does for DISCONNECT and AUTH |
| `Refused.ConnAckBlockRefused` | src/mqttproto/_types.py:778-790 | and for CONNACK |
| `Refused.PublishBlockRefused` | src/mqttproto/_types.py:839-876 | behind topic and packet id of a PUBLISH, the block decides |
| `Refused.PayloadRefused` | src/mqttproto/_types.py:857-864 | and behind the block the payload |
| `Refused.ConnectBlockRefused` | src/mqttproto/_types.py:614-632 | behind the first ten bytes of a CONNECT, the block decides |
| `Refused.ConnectRefused` | src/mqttproto/_types.py:634-671 | and behind the block the fields |
| `Refused.ClientIdRefused` | src/mqttproto/_types.py:634-635 | of these first the client id |
| `Refused.WillRefused` | src/mqttproto/_types.py:637-658 | then the Will, if there is one |
| `Refused.NameRefused` | src/mqttproto/_types.py:634-671 | then the user name, if it is announced |
| `Refused.PasswordRefused` | src/mqttproto/_types.py:634-671 | and then the password |
| `Refused.WillBlockRefused` | src/mqttproto/_types.py:638-639 | of a Will first the block |
| `Refused.WillTopicRefused` | src/mqttproto/_types.py:638-640 | then the topic |
| `Refused.WillPayloadRefused` | src/mqttproto/_types.py:640-658 | then the payload, as text or as bytes as the block says, and only then a QoS of 3 |
| `Layout.EncodedBytes` | src/mqttproto/_types.py:561-576 | an encoded packet byte by byte: the first byte of its type, the length of its body in the shortest form, and its body |
| `Layout.FirstLayout` | src/mqttproto/_types.py:561-567 | the first byte of each packet type, with the flag bits of a PUBLISH |
| `Layout.ConnectLayout` | src/mqttproto/_types.py:673-715 | a CONNECT begins with 00 04 4D 51 54 54 05, the flag bits 2, 4, 8, 32, 64 and 128, and the keep-alive interval high byte first; then properties, client id, Will, user name and password |
| `Layout.BodyLayout` | src/mqttproto/_types.py:561-576 | the body of every packet type, field by field, with its packet id high byte first |
| `Layout.ValueLayout` | src/mqttproto/_types.py:225-317 | the bytes of each property value by its kind |
| `Layout.PropsLayout` | src/mqttproto/_types.py:349-360 | a property block: its length, the ordinary properties in their order, and the user properties |
| `Layout.VarIntShortest` | src/mqttproto/_types.py:51-61 | an encoded integer is the shortest string of digits for its value |
| `Feeding.FeedBehind` | src/mqttproto/_base_client_state_machine.py:269-303 | bytes behind encoded packets that raise nothing are fed to the session that these leave |
| `Feeding.FeedRaises` | src/mqttproto/_base_client_state_machine.py:283-303 | what feed_bytes raises behind good packets, of the decoder, of handling, and for a packet no one handles; nothing is returned, and what was handled before stays handled |
| `Inbound.RefusedExactly` | src/mqttproto/_base_client_state_machine.py:70-191 | for every role, state, table and packet: a packet of the other direction is not handled, one in the wrong state or not fitting what is pending raises a protocol error, a CONNACK can fail an assertion, and nothing else raises |
| `Inbound.RefusedUnchanged` | src/mqttproto/_base_client_state_machine.py:176-183 | a packet of the wrong direction or in the wrong state changes nothing and is not answered |
| `Inbound.MessageArrives` | src/mqttproto/_base_client_state_machine.py:71-77 | what becomes of a message: table and answer, with the code 0x91 if its id is in use |
| `Inbound.NothingAcknowledged` | src/mqttproto/_base_client_state_machine.py:86-135 | a PUBREC or PUBREL for an unknown id is answered with PUBREL or PUBCOMP and the code 0x92, and nothing changes |
| `Inbound.WronglyAcknowledged` | src/mqttproto/_base_client_state_machine.py:78-155 | an acknowledgement that does not fit is not answered; PUBACK and PUBCOMP take the entry away, PUBREC and PUBREL leave it |
| `Inbound.RightlyAcknowledged` | src/mqttproto/_base_client_state_machine.py:78-155 | one that fits moves the entry on or ends it, in its place, and a client answers with the code 0x00, whatever code it received |
| `Inbound.CodesArrive` | src/mqttproto/client_state_machine.py:100-105 | a SUBACK or UNSUBACK takes away the entry it finds, even one it does not fit |
| `Inbound.SubscribeArrives` | src/mqttproto/broker_state_machine.py:130-133 | a SUBSCRIBE is entered last and not answered; under an id in use it is answered with one 0x91 per subscription |
| `Inbound.UnsubscribeArrives` | src/mqttproto/broker_state_machine.py:134-150 | the UNSUBACK has one code per pattern: 0x00 if and only if the pattern had a subscription and is not among the patterns before it, else 0x11; exactly the named subscriptions are gone |
| `Inbound.FoundOnce` | src/mqttproto/broker_state_machine.py:139-146 | 0x00 stands for exactly the patterns that lose their subscription, once for each |
| `Inbound.OthersArrive` | src/mqttproto/_base_client_state_machine.py:156-162 | CONNECT takes the client id over, a refusing CONNACK disconnects and changes nothing else, and so on for DISCONNECT, AUTH and the pings |
| `Inbound.AcceptedAnew` | src/mqttproto/client_state_machine.py:64-96 | a CONNACK without a session resets counter and subscriptions, and resends the pending publishes, with the duplicate flag, up to the first entry that is none |
| `Inbound.AcceptedAgain` | src/mqttproto/client_state_machine.py:56-96 | a CONNACK with a session keeps the pending publishes in their order, and resends each with the duplicate flag |
| `Requests.PublishExactly` | src/mqttproto/client_state_machine.py:171-180 | publish sends one PUBLISH with topic, payload, retain flag and QoS of the call, no duplicate flag, and the next packet id or none; it enters that message under a free id, and raises if the topic is too long |
| `Requests.RequestEnters` | src/mqttproto/_base_client_state_machine.py:193-236 | a request goes out and is entered last; if its id is in use the table stays and a reply with 0x91 throughout follows |
| `Requests.SubscribeExactly` | src/mqttproto/client_state_machine.py:201-219 | subscribe sends one SUBSCRIBE for the first subscription to each pattern that had none, in the order of the call; every count and the whole map after it, also when it raises |
| `Requests.UnsubscribeExactly` | src/mqttproto/client_state_machine.py:233-251 | unsubscribe sends one UNSUBSCRIBE for the patterns whose count it uses up, in the order in which it does; every count and the whole map after it |
| `Requests.UnsubscribeRaises` | src/mqttproto/client_state_machine.py:235-241 | when it raises KeyError, what was counted down before stays so, and nothing is sent |
| `HandshakeSteps.AskedFor` | src/mqttproto/client_state_machine.py:171-180 | the message that a publish of the joint model sends is the one its arguments ask for, and its receiver sees it unchanged |
| `Answers.AcknowledgeExactly` | src/mqttproto/_base_client_state_machine.py:305-323 | acknowledge_publish: the answer with the code of the call, and what becomes of the entry, also when it raises |
| `Answers.ReleaseExactly` | src/mqttproto/_base_client_state_machine.py:325-351 | release_qos2_publish in all cases; code 0x92 needs no entry |
| `Answers.CompleteExactly` | src/mqttproto/_base_client_state_machine.py:353-375 | complete_qos2_publish in all cases; code 0x92 needs no entry |
| `Answers.GrantExactly` | src/mqttproto/broker_state_machine.py:219-240 | acknowledge_subscribe: the SUBACK carries the codes of the call, the last subscription granted with 0x00 per pattern is installed, and what a call that raises leaves behind |
| `Answers.ConnectAnswered` | src/mqttproto/broker_state_machine.py:196-205 | acknowledge_connect: 0x00 connects, any other code disconnects, the CONNACK carries code and session flag of the call; a code that is none for a CONNACK disconnects and raises |
| `Answers.DeliverExactly` | src/mqttproto/broker_state_machine.py:173-182 | deliver_publish sends a message unchanged and once if and only if the session is connected and a subscription wants it: by QoS, by its filter read character by character, and by its no-local option |
| `Answers.ConnectExactly` | src/mqttproto/client_state_machine.py:125-135 | connect sends one CONNECT with the client id, the arguments and no properties, or raises and changes nothing |
| `Answers.DisconnectExactly` | src/mqttproto/client_state_machine.py:137-141 | disconnect sends one DISCONNECT with the code of the call, or raises and changes nothing |
| `Answers.PingExactly` | src/mqttproto/client_state_machine.py:143-147 | ping sends one PINGREQ, or raises and changes nothing |
| `Matching.MatchesByCharacters` | src/mqttproto/_types.py:514-544 | the matching of levels is a walk along filter and topic by characters |
| `Lifecycle.ClientConnection` | src/mqttproto/client_state_machine.py:72-141 | in every run of a client, whatever raises, CONNECT, CONNACK and DISCONNECT come in turns and the last one decides the state: connected exactly after a CONNACK with 0x00 |
| `Lifecycle.PacketMoves` | src/mqttproto/_base_client_state_machine.py:156-162 | what each inbound packet does to the connection, for both roles; answers go out only from the connected state |
| `Lifecycle.CallNeedsState` | src/mqttproto/_base_client_state_machine.py:185-191 | a call raises a protocol error if and only if the client is not connected, or for connect not disconnected; it then changes and sends nothing |
| `Lifecycle.SendsWhenConnected` | src/mqttproto/_base_client_state_machine.py:185-191 | a client sends nothing unless it is connected, but for the CONNECT |
| `Lifecycle.RefusedByBytes` | src/mqttproto/client_state_machine.py:95-96 | the bytes of a refusing CONNACK leave a connecting client disconnected, having sent nothing, with table, counter and maps unchanged |
| `Lifecycle.BrokerConnection` | src/mqttproto/broker_state_machine.py:151-205 | in every run of a broker session, whatever raises, CONNECT, its answer and DISCONNECT come in turns, the last one decides the state, and the client id is that of the last CONNECT |
| `Lifecycle.TaskNeedsState` | src/mqttproto/_base_client_state_machine.py:185-191 | the calls of the application raise outside their state, change nothing and send nothing |

## Left out

- `async_client.py`, `async_broker.py`, `sync_client.py`: sockets, TLS, websockets, task groups, retries and authenticators.
- Logging, exception texts, `repr`, and the UUID that names a client without an id.
- attrs validators other than those of reason codes, QoS and non-empty requests: arguments are taken to have their declared types, and the value of a property the type its encoder declares. Strings with lone surrogates, which Python cannot encode, are not texts of the model.
- `max_packet_size` of `decode_packet`: `feed_bytes` never passes one.
- The fields `ping_pending`, `may_retain`, `maximum_qos`, `auth_method` and `username`, which no modelled behaviour reads.
- The client and broker subclasses are one class with a `role`; the DISCONNECT branches of the subclasses are left out because the base class has already handled that packet.
- The memoryview over the inbound buffer: a view that an exception leaves unreleased blocks later feeding in Python. The model lets feeding go on with the uncut buffer.
- The identity of packet objects: a received PUBLISH and its entry in the table are one object in the source, so `ack_state` and `duplicate` can be seen through both, and a publish delivered to several sessions is shared by their tables. The model copies.
- StateMachine.SessionStateMachine.AddPendingPacket: always reports a packet id in use if it is taken. The source accepts without a report the very packet object that is pending already, as when a message is delivered again to a session that has it pending.
- StateMachine.SessionStateMachine.DeliverPublish: reports a packet id in use in that case too, where the source sends the message alone.
- BrokerStateMachine.Broker.Publish: says what happens to outputs and sessions only for messages without a packet id, because of that sharing; recipients, errors and the retained store are stated for all.
- Registration of one session under two client ids: the broker's sessions are taken to be registered under their own client ids.
- `remove_client_session`, which stores the session, `acknowledge_connect` of the broker with its resumption, `client_disconnected` and `subscribe` of the broker.
- Shared subscriptions (`$share`): the group id is recorded in the source and not used.
- DISCONNECT and reconnection in the joint model: its runs lie within one connection. Reconnection of a client against an arbitrary peer is in AutoAcknowledge.
- A call of `feed_bytes` that raises ends a run in AutoAcknowledge, ReferenceCounting and PacketIds; any other call may raise, and the run goes on.
