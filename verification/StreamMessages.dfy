/** Stream messages and acknowledgements as the server handles them: fields that can be set,
    beside the view of the bytes they were parsed from. */
module StreamMessages {
  import opened GoTypes
  import opened FlatBuffers
  import opened FlatBuilder
  import opened TeslaMessages
  import Identity

  /** The value of a StreamMessage. While `fsm` is present, encoding goes through the view. */
  datatype Message = Message(fsm: Option<Table>, envelope: Option<Table>, fields: Fields) {
    /** The view and the fields tell the same story. */
    predicate Agrees() {
      fsm.Some? ==> envelope.Some? && ReadFields(envelope.value, fsm.value) == Ok(fields)
    }
  }

  /** StreamMessageFromBytes. Reporting a wrong type reads the txid and the topic, which may panic. */
  function FromBytes(value: Slice): (r: Outcome<Message>) {
    var (envelope, stream) :- EnvelopeFromBytes(value);
    var messageType :- MessageType(envelope);
    if messageType != STREAM then
      var _ :- Txid(envelope);
      var _ :- Topic(envelope);
      Rejected
    else
      var fields :- ReadFields(envelope, stream);
      Ok(Message(Some(stream), Some(envelope), fields))
  }

  /** StreamMessage.ToBytes: re-encode the view if there is one, the fields otherwise. */
  function Encoded(m: Message): (r: Outcome<Bytes>) {
    if m.fsm.None? then Ok(StreamToBytes(m.fields))
    else if m.envelope.None? then Panicked
    else
      var fields :- ReadFields(m.envelope.value, m.fsm.value);
      Ok(StreamToBytes(fields))
  }

  datatype Setter =
    | SetSenderID(senderId: string)
    | SetIdentity(deviceType: string, deviceId: string)
    | SetMessageID(messageId: Bytes)
    | SetDeliveredAt(unixNanos: int)

  /** `uint64(nanos / int64(time.Millisecond))`: division truncates, conversion wraps. */
  function EpochMs(nanos: int): (ms: U64) {
    (if nanos >= 0 then nanos / 1_000_000 else -(-nanos / 1_000_000)) % 0x1_0000_0000_0000_0000
  }

  /** The whole milliseconds since the epoch, as an unsigned number; a moment before the epoch is cut
      off towards it, and its negative number wraps. */
  predicate IsMilliseconds(ms: U64, nanos: int) {
    if nanos > -1_000_000 then ms * 1_000_000 <= (if nanos < 0 then 0 else nanos) < (ms + 1) * 1_000_000
    else var wrapped := ms - 0x1_0000_0000_0000_0000; (wrapped - 1) * 1_000_000 < nanos <= wrapped * 1_000_000
  }

  /** What is stored for any time in 64 bits of nanoseconds. */
  lemma DeliveredInMilliseconds(nanos: int)
    requires -0x8000_0000_0000_0000 <= nanos < 0x8000_0000_0000_0000
    ensures IsMilliseconds(EpochMs(nanos), nanos)
  {
  }

  function Apply(m: Message, s: Setter): (r: Message) {
    var fields :=
      match s
      case SetSenderID(senderId) =>
        var (deviceType, deviceId) := Identity.ParseSenderId(senderId);
        m.fields.(senderId := ToBytes(senderId), deviceType := ToBytes(deviceType), deviceId := ToBytes(deviceId))
      case SetIdentity(deviceType, deviceId) =>
        m.fields.(deviceType := ToBytes(deviceType), deviceId := ToBytes(deviceId),
        senderId := ToBytes(Identity.BuildClientId(deviceType, deviceId)))
      case SetMessageID(messageId) => m.fields.(messageId := messageId)
      case SetDeliveredAt(unixNanos) => m.fields.(deliveredAt := EpochMs(unixNanos));
    Message(None, m.envelope, fields)
  }

  /** What a setter sets, byte for byte, and that it sets nothing else. A sender id is split at its
      first dot; without one it is all device type. */
  ghost predicate Sets(s: Setter, before: Fields, after: Fields) {
    match s
    case SetSenderID(senderId) =>
      && after == before.(senderId := after.senderId, deviceType := after.deviceType, deviceId := after.deviceId)
      && after.senderId == ToBytes(senderId)
      && (if '.' in senderId then
            exists k :: 0 <= k < |senderId| && senderId[k] == '.' && '.' !in senderId[..k]
                        && after.deviceType == ToBytes(senderId[..k]) && after.deviceId == ToBytes(senderId[k + 1..])
          else after.deviceType == ToBytes(senderId) && after.deviceId == [])
    case SetIdentity(deviceType, deviceId) =>
      && after == before.(senderId := after.senderId, deviceType := after.deviceType, deviceId := after.deviceId)
      && after.deviceType == ToBytes(deviceType) && after.deviceId == ToBytes(deviceId)
      && after.senderId == ToBytes(deviceType) + ToBytes(".") + ToBytes(deviceId)
    case SetMessageID(messageId) =>
      after == before.(messageId := messageId)
    case SetDeliveredAt(unixNanos) =>
      && after == before.(deliveredAt := after.deliveredAt)
      && (-0x8000_0000_0000_0000 <= unixNanos < 0x8000_0000_0000_0000 ==> IsMilliseconds(after.deliveredAt, unixNanos))
  }

  /** Every setter sets what it should, and leaves a message that is encoded from its fields. */
  lemma SettersSet(m: Message, s: Setter)
    ensures Sets(s, m.fields, Apply(m, s).fields)
    ensures Apply(m, s).fsm.None? && Apply(m, s).envelope == m.envelope
  {
    match s {
      case SetSenderID(senderId) =>
        var k := Identity.FirstDot(senderId);
        if k < |senderId| {
          assert senderId[k] == '.' && '.' !in senderId[..k];
        } else {
          assert ToBytes("") == [];
        }
      case SetIdentity(deviceType, deviceId) =>
        assert ToBytes(Identity.BuildClientId(deviceType, deviceId)) == ToBytes(deviceType) + ToBytes(".") + ToBytes(deviceId);
      case SetMessageID(_) =>
      case SetDeliveredAt(unixNanos) =>
        if -0x8000_0000_0000_0000 <= unixNanos < 0x8000_0000_0000_0000 {
          DeliveredInMilliseconds(unixNanos);
        }
    }
  }

  function ApplyAll(m: Message, setters: seq<Setter>): (r: Message) {
    if setters == [] then m else Apply(ApplyAll(m, setters[..|setters| - 1]), setters[|setters| - 1])
  }

  // ---------------------------------------------------------------- round trips

  /** A buffer that holds a stream message is parsed into its fields, whatever its layout. */
  lemma AnyLayoutParses(buf: Bytes, spare: Spare, e: EnvelopeLayout, s: StreamLayout, f: Fields)
    requires HasEnvelope(buf, e, f.txid, f.topic, STREAM, f.messageId) && HasStream(buf, s, f) && e.message == s.table.at
    ensures var value := Slice(buf, spare);
            FromBytes(value) == Ok(Message(Some(View(value, s.table.at)), Some(View(value, e.table.at)), f))
  {
    hide HasStream, ReadFields, EnvelopeFromBytes, Txid, Topic, MessageType;
    EnvelopeReads(buf, spare, e, f.txid, f.topic, STREAM, f.messageId);
    StreamReads(buf, spare, e, s, f);
  }

  /** Encoding and parsing gives every field back. */
  lemma StreamRoundTrip(f: Fields, spare: Spare)
    requires f.Size() <= SIZE_LIMIT
    ensures var r := FromBytes(Slice(StreamToBytes(f), spare)); r.Ok? && r.value.fields == f && r.value.fsm.Some?
  {
    hide HasStream, HasEnvelope, FromBytes, StreamToBytes;
    var e, s := StreamHeld(f);
    AnyLayoutParses(StreamToBytes(f), spare, e, s, f);
  }

  lemma ParsedAgrees(value: Slice)
    ensures var r := FromBytes(value); r.Ok? ==> r.value.Agrees()
  {
    hide EnvelopeFromBytes, Txid, Topic, MessageType, ReadFields;
  }

  /** Whatever bytes a message was parsed from, no field is longer than the buffer they came in. */
  lemma ParsedSize(value: Slice)
    ensures var r := FromBytes(value);
            r.Ok? ==>
              var f := r.value.fields;
              && |f.senderId| <= value.Capacity() && |f.topic| <= value.Capacity() && |f.txid| <= value.Capacity()
              && |f.payload| <= value.Capacity() && |f.messageId| <= value.Capacity()
              && |f.deviceType| <= value.Capacity() && |f.deviceId| <= value.Capacity()
  {
    hide ReadBytesField, ReadU32Field, ReadU64Field, ReadByteField;
    var r := FromBytes(value);
    if r.Ok? {
      var envelope, stream := r.value.envelope.value, r.value.fsm.value;
      VectorWithinBuffer(envelope, 4);
      VectorWithinBuffer(envelope, 6);
      VectorWithinBuffer(envelope, 12);
      VectorWithinBuffer(stream, 6);
      VectorWithinBuffer(stream, 8);
      VectorWithinBuffer(stream, 10);
      VectorWithinBuffer(stream, 12);
    }
  }

  /** After construction or parsing, any setters keep view and fields in agreement. */
  lemma {:induction false} SettersAgree(m: Message, setters: seq<Setter>)
    requires m.Agrees()
    ensures ApplyAll(m, setters).Agrees()
  {
    if setters != [] {
      SettersAgree(m, setters[..|setters| - 1]);
    }
  }

  /** The two encoding paths agree, and what they produce parses back to the current fields. */
  lemma EncodedParses(m: Message, spare: Spare)
    requires m.Agrees()
    ensures Encoded(m) == Ok(StreamToBytes(m.fields))
    ensures m.fields.Size() <= SIZE_LIMIT ==>
              var r := FromBytes(Slice(Encoded(m).value, spare)); r.Ok? && r.value.fields == m.fields
  {
    hide FromBytes, StreamToBytes, ReadFields;
    if m.fields.Size() <= SIZE_LIMIT {
      StreamRoundTrip(m.fields, spare);
    }
  }

  lemma EncodedParsesAnywhere(m: Message)
    requires m.Agrees()
    ensures Encoded(m) == Ok(StreamToBytes(m.fields))
    ensures m.fields.Size() <= SIZE_LIMIT ==>
              forall spare: Spare ::
                FromBytes(Slice(StreamToBytes(m.fields), spare)).Ok? && FromBytes(Slice(StreamToBytes(m.fields), spare)).value.fields == m.fields
  {
    hide FromBytes, StreamToBytes, ReadFields, Encoded;
    EncodedParses(m, []);
    if m.fields.Size() <= SIZE_LIMIT {
      forall spare: Spare
        ensures FromBytes(Slice(StreamToBytes(m.fields), spare)).Ok? && FromBytes(Slice(StreamToBytes(m.fields), spare)).value.fields == m.fields
      {
        EncodedParses(m, spare);
      }
    }
  }

  /** Over any sequence of setter calls, the encoded message parses back to the current fields. */
  lemma SettersThenEncode(m: Message, setters: seq<Setter>, spare: Spare)
    requires m.Agrees() && ApplyAll(m, setters).fields.Size() <= SIZE_LIMIT
    ensures var current := ApplyAll(m, setters);
            && Encoded(current) == Ok(StreamToBytes(current.fields))
            && FromBytes(Slice(Encoded(current).value, spare)).Ok?
            && FromBytes(Slice(Encoded(current).value, spare)).value.fields == current.fields
  {
    hide FromBytes, StreamToBytes, ReadFields;
    SettersAgree(m, setters);
    EncodedParses(ApplyAll(m, setters), spare);
  }

  /** No setter touches the topic, the txid, the payload or the creation time, and any setter drops the view. */
  lemma {:induction false} SettersKeepTheRest(m: Message, setters: seq<Setter>)
    ensures var r := ApplyAll(m, setters);
            && r.fields.topic == m.fields.topic && r.fields.txid == m.fields.txid
            && r.fields.payload == m.fields.payload && r.fields.createdAt == m.fields.createdAt
            && (setters != [] ==> r.fsm.None?)
  {
    if setters != [] {
      SettersKeepTheRest(m, setters[..|setters| - 1]);
    }
  }

  /** Setting the joined id and setting its two parts leave the same message exactly when the
      device type has no dot, as for every accepted certificate. */
  lemma SenderIdOrIdentity(m: Message, deviceType: string, deviceId: string)
    ensures Apply(m, SetSenderID(Identity.BuildClientId(deviceType, deviceId))) == Apply(m, SetIdentity(deviceType, deviceId))
       <==> '.' !in deviceType
  {
    Identity.ParseUndoesBuild(deviceType, deviceId);
    var (t, d) := Identity.ParseSenderId(Identity.BuildClientId(deviceType, deviceId));
    if '.' in deviceType {
      var s := Identity.BuildClientId(deviceType, deviceId);
      var k :| 0 <= k < |deviceType| && deviceType[k] == '.';
      assert s[k] == '.' && |t| <= k;
      assert |ToBytes(t)| != |ToBytes(deviceType)|;
    }
  }

  /** An envelope of the stream type around something that is no table: a byte vector, whose length
      is taken for the distance to a vtable far outside the buffer. */
  lemma ImpostorPanics(txid: Bytes, spare: Spare) returns (buf: Bytes)
    requires |txid| <= 0x1000_0000
    ensures |buf| <= 2 * |txid| + 0x800 && FromBytes(Slice(buf, spare)) == Panicked
    ensures Root(Slice(buf, spare)).Ok? && Txid(Root(Slice(buf, spare)).value) == Ok(txid) && EnvelopeFromBytes(Slice(buf, spare)).Ok?
  {
    hide HasHeader, EnvelopeToBytes, CreateByteString, Extends, Value, Topic, Txid, MessageType;
    var filler := Zeros(|txid| + 0x400);
    var (d, message) := CreateByteString(EMPTY, filler);
    ByteStringHeld(EMPTY, filler);
    buf := EnvelopeToBytes(d, txid, [], message, [], STREAM);
    var e := EnvelopeHeld(d, txid, [], message, [], STREAM);
    EnvelopeReads(buf, spare, e, txid, [], STREAM, []);
    VectorKept(d.bytes, buf, message, filler);
    VectorIsNoTable(buf, spare, message, filler);
  }

  /** Reading a slot of a "table" that is a vector longer than its distance from the start of the buffer. */
  lemma VectorIsNoTable(buf: Bytes, spare: Spare, at: nat, s: Bytes)
    requires at <= |buf| < 0x4000_0000 && HasVector(buf, at, s) && |buf| - at < |s| < 0x2000_0000
    ensures SenderId(View(Slice(buf, spare), at)) == Panicked
  {
    hide Value;
    assert Wrap(|buf| - at - |s|) == 0x1_0000_0000 + |buf| - at - |s|;
  }

  // ---------------------------------------------------------------- acknowledgements

  datatype AckMessage = AckMessage(envelope: Option<Table>, txid: Bytes, topic: Bytes, messageId: Bytes)

  /** StreamAckMessageFromBytes: unlike the stream parser it does not check for empty input. */
  function AckFromBytes(value: Slice): (r: Outcome<AckMessage>) {
    var envelope :- Root(value);
    var messageType :- MessageType(envelope);
    var txid :- Txid(envelope);
    var topic :- Topic(envelope);
    if messageType != STREAM_ACK then Rejected
    else
      var messageId :- MessageId(envelope);
      Ok(AckMessage(Some(envelope), txid, topic, messageId))
  }

  /** An encoded acknowledgement is parsed back, and never taken for a stream message. */
  lemma AckRoundTrip(txid: Bytes, topic: Bytes, messageId: Bytes, spare: Spare)
    requires |txid| + |topic| + |messageId| <= SIZE_LIMIT
    ensures var encoded := Slice(AckToBytes(txid, topic, messageId), spare);
            && FromBytes(encoded) == Rejected
            && var r := AckFromBytes(encoded);
               r.Ok? && r.value.txid == txid && r.value.topic == topic && r.value.messageId == messageId
  {
    hide HasEnvelope, AckToBytes, EnvelopeFromBytes, Txid, Topic, MessageType, MessageId;
    var e := AckHeld(txid, topic, messageId);
    EnvelopeReads(AckToBytes(txid, topic, messageId), spare, e, txid, topic, STREAM_ACK, messageId);
  }

  /** An encoded stream message is never taken for an acknowledgement. */
  lemma StreamIsNoAck(f: Fields, spare: Spare)
    requires f.Size() <= SIZE_LIMIT
    ensures AckFromBytes(Slice(StreamToBytes(f), spare)) == Rejected
  {
    hide HasEnvelope, HasStream, StreamToBytes, EnvelopeFromBytes, Txid, Topic, MessageType, MessageId;
    var e, _ := StreamHeld(f);
    EnvelopeReads(StreamToBytes(f), spare, e, f.txid, f.topic, STREAM, f.messageId);
  }

  /** No bytes at all are refused as a stream message, whatever lies behind them; as an acknowledgement
      they make the parser panic, which has no check for that. */
  lemma NothingToParse(spare: Spare)
    ensures FromBytes(Slice([], spare)) == Rejected && AckFromBytes(Slice([], spare)) == Panicked
  {
  }

  /** What the parser makes of any bytes. They are a stream message exactly if the envelope says so and
      every field can be read; refused if there are none, if there is no union field, or if the type is
      another and the txid and topic, which the refusal names, can be read; anything else panics. */
  lemma EveryMessageParses(value: Slice)
    ensures var r := FromBytes(value);
            var root := Root(value);
            var union := if root.Ok? then ReadUnionField(root.value, 10) else Panicked;
            && (r.Ok? <==>
                  && value.bytes != [] && union.Ok? && union.value.Some? && MessageType(root.value) == Ok(4)
                  && Txid(root.value).Ok? && Topic(root.value).Ok? && MessageId(root.value).Ok?
                  && var s := union.value.value;
                     && SenderId(s).Ok? && DeviceType(s).Ok? && DeviceId(s).Ok? && Payload(s).Ok?
                     && CreatedAt(s).Ok? && DeliveredAt(s).Ok?)
            && (r.Rejected? <==>
                  || value.bytes == []
                  || (union.Ok? && union.value.None?)
                  || (union.Ok? && MessageType(root.value).Ok? && MessageType(root.value) != Ok(4)
                      && Txid(root.value).Ok? && Topic(root.value).Ok?))
  {
    hide Root, ReadUnionField, MessageType, Txid, Topic, MessageId, SenderId, DeviceType, DeviceId, Payload, CreatedAt, DeliveredAt;
    RootNeverRejects(value);
  }

  /** The same for the acknowledgement parser, which looks at no union field, reads txid and topic
      first, and refuses only what it could read that far. */
  lemma EveryAckParses(value: Slice)
    ensures var r, root := AckFromBytes(value), Root(value);
            && (r.Ok? <==>
                  && root.Ok? && MessageType(root.value) == Ok(5)
                  && Txid(root.value).Ok? && Topic(root.value).Ok? && MessageId(root.value).Ok?)
            && (r.Rejected? <==>
                  && root.Ok? && MessageType(root.value).Ok? && MessageType(root.value) != Ok(5)
                  && Txid(root.value).Ok? && Topic(root.value).Ok?)
  {
    hide Root, MessageType, Txid, Topic, MessageId;
    RootNeverRejects(value);
  }

  lemma RootNeverRejects(value: Slice)
    ensures !Root(value).Rejected? && (Root(value).Ok? ==> !ReadUnionField(Root(value).value, 10).Rejected?)
  {
  }

  /** A few bytes are enough to make both parsers panic. */
  lemma TooShortToParse(b: Bytes, spare: Spare)
    requires 0 < |b| < 4
    ensures FromBytes(Slice(b, spare)) == Panicked && AckFromBytes(Slice(b, spare)) == Panicked
  {
  }

  /** On the wire a stream message is of type 4, and an acknowledgement of type 5. */
  lemma WireTypes(f: Fields, txid: Bytes, topic: Bytes, messageId: Bytes, spare: Spare)
    requires f.Size() <= SIZE_LIMIT && |txid| + |topic| + |messageId| <= SIZE_LIMIT
    ensures var stream, ack := Root(Slice(StreamToBytes(f), spare)), Root(Slice(AckToBytes(txid, topic, messageId), spare));
            stream.Ok? && MessageType(stream.value) == Ok(4) && ack.Ok? && MessageType(ack.value) == Ok(5)
  {
    hide HasEnvelope, HasStream, StreamToBytes, AckToBytes, EnvelopeFromBytes, Txid, Topic, MessageType, MessageId;
    var e, _ := StreamHeld(f);
    EnvelopeReads(StreamToBytes(f), spare, e, f.txid, f.topic, STREAM, f.messageId);
    var a := AckHeld(txid, topic, messageId);
    EnvelopeReads(AckToBytes(txid, topic, messageId), spare, a, txid, topic, STREAM_ACK, messageId);
  }

  // ---------------------------------------------------------------- the object

  /** StreamMessage: its setters assign fields in place and drop the view. */
  class StreamMessage {
    var fsm: Option<Table>
    var envelope: Option<Table>
    var fields: Fields

    function State(): Message
      reads this
    {
      Message(fsm, envelope, fields)
    }

    /** A message made from its fields, as a composite literal in the source. */
    constructor (f: Fields)
      ensures State() == Message(None, None, f) && State().Agrees()
    {
      fsm, envelope, fields := None, None, f;
    }

    constructor Parsed(m: Message)
      ensures State() == m
    {
      fsm, envelope, fields := m.fsm, m.envelope, m.fields;
    }

    /** Any one setter call. */
    method Set(s: Setter)
      modifies this
      ensures State() == Apply(old(State()), s)
      ensures Sets(s, old(fields), fields) && fsm.None? && envelope == old(envelope)
      ensures State().Agrees()
    {
      hide Sets;
      SettersSet(State(), s);
      match s {
        case SetSenderID(senderId) =>
          var (deviceType, deviceId) := Identity.ParseSenderId(senderId);
          fields := fields.(senderId := ToBytes(senderId));
          fields := fields.(deviceType := ToBytes(deviceType));
          fields := fields.(deviceId := ToBytes(deviceId));
        case SetIdentity(deviceType, deviceId) =>
          fields := fields.(deviceType := ToBytes(deviceType));
          fields := fields.(deviceId := ToBytes(deviceId));
          fields := fields.(senderId := ToBytes(Identity.BuildClientId(deviceType, deviceId)));
        case SetMessageID(messageId) =>
          fields := fields.(messageId := messageId);
        case SetDeliveredAt(unixNanos) =>
          fields := fields.(deliveredAt := EpochMs(unixNanos));
      }
      fsm := None;
    }

    /** ToBytes. */
    method Encode() returns (r: Bytes)
      requires State().Agrees()
      ensures Encoded(State()) == Ok(r) && r == StreamToBytes(fields)
      ensures fields.Size() <= SIZE_LIMIT ==>
                forall spare: Spare :: FromBytes(Slice(r, spare)).Ok? && FromBytes(Slice(r, spare)).value.fields == fields
    {
      hide FromBytes, StreamToBytes;
      EncodedParsesAnywhere(State());
      if fsm.None? {
        r := EncodeStream(fields);
      } else {
        var viewed := ReadFields(envelope.value, fsm.value);
        r := EncodeStream(viewed.value);
      }
    }
  }
}
