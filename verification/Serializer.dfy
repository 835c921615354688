/** From the bytes a vehicle sends to a record, and from a record to the bytes sent back. */
module Serializer {
  import opened GoTypes
  import opened Dispatchers
  import opened FlatBuffers
  import opened FlatBuilder
  import opened TeslaMessages
  import opened StreamMessages
  import RecordTransforms

  /** Largest accepted message, in bytes. */
  const MESSAGE_LIMIT: nat := 1_000_000

  datatype RequestIdentity = RequestIdentity(deviceId: string, senderId: string, clientVersion: string)

  /** What one connection's serializer knows. */
  datatype Context = Context(rules: map<string, seq<Dispatcher>>, identity: RequestIdentity)

  /** The fields of a telemetry record. */
  datatype RecordValue = RecordValue(rawBytes: Bytes, socketId: string, txid: string, txType: string,
                                     vin: string, payload: Bytes, clientVersion: string, transmitDecoded: bool,
                                     message: RecordTransforms.Message)

  const BLANK := RecordValue([], "", "", "", "", [], "", false, RecordTransforms.NoMessage)

  datatype RecordError =
    | MessageTooBig
    | UnauthorizedSenderId
    | UnknownMessageType(txid: string, guessedType: Byte)
    | OtherError

  /** What protobuf and its JSON form make of payloads and messages, given the VIN that a message is
      marshalled with, and what locations and numbers mean; None is an error. */
  datatype Codec = Codec(
    signals: Bytes -> Option<seq<RecordTransforms.Datum>>,
    alerts: Bytes -> Option<seq<RecordTransforms.Alert>>,
    errors: Bytes -> Option<seq<string>>,
    connectivity: Bytes -> bool,
    marshal: (RecordTransforms.Message, string) -> Option<Bytes>,
    json: (RecordTransforms.Message, string) -> Option<Bytes>,
    location: RecordTransforms.LocationParser,
    number: RecordTransforms.FloatParser)

  /** The message a payload of the given type stands for. */
  function Unmarshalled(codec: Codec, txType: string, payload: Bytes): (m: Option<RecordTransforms.Message>)
    ensures m.Some? ==> m.value.OfType(txType)
  {
    if txType == "alerts" then
      var alerts := codec.alerts(payload);
      if alerts.Some? then Some(RecordTransforms.Alerts(alerts.value)) else None
    else if txType == "errors" then
      var errors := codec.errors(payload);
      if errors.Some? then Some(RecordTransforms.Errors(errors.value)) else None
    else if txType == "V" then
      var signals := codec.signals(payload);
      if signals.Some? then Some(RecordTransforms.Signals(signals.value)) else None
    else if txType == "connectivity" then
      if codec.connectivity(payload) then Some(RecordTransforms.Connectivity) else None
    else Some(RecordTransforms.NoMessage)
  }

  datatype Result = Result(record: RecordValue, error: Option<RecordError>)

  /** guessError: name the transaction and the type of a message that is no stream message. */
  function Guessed(record: RecordValue, msg: Slice): (r: Result) {
    match EnvelopeFromBytes(msg)
    case Rejected => Result(record, Some(UnknownMessageType("", 0)))
    case Panicked => Result(record, Some(OtherError))
    case Ok((envelope, _)) =>
      match Txid(envelope)
      case Ok(txid) =>
        var named := record.(txid := ToString(txid));
        if MessageType(envelope).Ok?
        then Result(named, Some(UnknownMessageType(named.txid, MessageType(envelope).value)))
        else Result(named, Some(OtherError))
      case _ => Result(record, Some(OtherError))
  }

  /** BinarySerializer.Deserialize at time `now`; a panic is recovered into an error. */
  function Deserialized(c: Context, msg: Slice, socketId: string, now: int): (r: Result) {
    var record := BLANK.(rawBytes := msg.bytes, socketId := socketId);
    match FromBytes(msg)
    case Rejected => Guessed(record, msg)
    case Panicked => Result(record, Some(OtherError))
    case Ok(message) =>
      var delivered := Apply(message, SetDeliveredAt(now)).fields;
      var filled := record.(rawBytes := StreamToBytes(delivered), txType := ToString(delivered.topic),
        txid := ToString(delivered.txid), vin := c.identity.deviceId,
        payload := delivered.payload, clientVersion := c.identity.clientVersion);
      Result(filled, if Authorized(c, filled.txType, ToString(delivered.senderId)) then None else Some(OtherError))
  }

  /** Types with a dispatch rule are accepted from anyone; others only from the connected device. */
  predicate Authorized(c: Context, txType: string, senderId: string) {
    txType in c.rules || senderId == c.identity.senderId || senderId == c.identity.deviceId
  }

  /** applyProtoRecordTransforms: the message is unmarshalled, normalised and marshalled again. */
  function Rewritten(codec: Codec, record: RecordValue): (r: Result) {
    var message := Unmarshalled(codec, record.txType, record.payload);
    if message.None? then Result(record, Some(OtherError))
    else if message.value.NoMessage? then Result(record, None)
    else
      var normal := RecordTransforms.Normalised(message.value, codec.location, codec.number);
      var payload := codec.marshal(normal, record.vin);
      if payload.None? then Result(record.(payload := [], message := normal), Some(OtherError))
      else Result(record.(payload := payload.value, message := normal), None)
  }

  /** applyRecordTransforms: the rewritten record, with its payload as JSON if that is asked for. */
  function Transformed(codec: Codec, record: RecordValue): (r: Result) {
    var rewritten := Rewritten(codec, record);
    if rewritten.error.Some? || !record.transmitDecoded then rewritten
    else
      var json := codec.json(rewritten.record.message, record.vin);
      if json.Some? then Result(rewritten.record.(payload := json.value), None)
      else Result(rewritten.record.(payload := []), Some(OtherError))
  }

  /** NewRecord. */
  function RecordFor(c: Context, codec: Codec, msg: Slice, socketId: string, transmitDecoded: bool, now: int): (r: Result) {
    if |msg.bytes| > MESSAGE_LIMIT then Result(BLANK.(transmitDecoded := transmitDecoded), Some(MessageTooBig))
    else
      var d := Deserialized(c, msg, socketId, now);
      var record := d.record.(transmitDecoded := transmitDecoded);
      if d.error.Some? then Result(record, d.error) else Transformed(codec, record)
  }

  const FORMAT_ERROR := "incorrect message format"

  /** The acknowledgement of a record. */
  function AckOf(record: RecordValue): (b: Bytes) {
    AckToBytes(ToBytes(record.txid), ToBytes(record.txType), [])
  }

  /** The error response to a record: a stream message with only a txid and a payload. */
  function ErrorOf(record: RecordValue): (b: Bytes) {
    StreamToBytes(Fields([], [], ToBytes(record.txid), ToBytes(FORMAT_ERROR), 0, [], [], [], 0))
  }

  // ---------------------------------------------------------------- the objects

  /** Record: created blank and filled in place as the message is understood. */
  class Record {
    var rawBytes: Bytes
    var socketId: string
    var txid: string
    var txType: string
    var vin: string
    var payload: Bytes
    var clientVersion: string
    var transmitDecoded: bool
    var message: RecordTransforms.Message

    function Value(): RecordValue
      reads this
    {
      RecordValue(rawBytes, socketId, txid, txType, vin, payload, clientVersion, transmitDecoded, message)
    }

    constructor (rawBytes: Bytes, socketId: string)
      ensures Value() == BLANK.(rawBytes := rawBytes, socketId := socketId)
    {
      this.rawBytes, this.socketId := rawBytes, socketId;
      txid, txType, vin, payload, clientVersion, transmitDecoded := "", "", "", [], "", false;
      message := RecordTransforms.NoMessage;
    }

    method ApplyProtoRecordTransforms(codec: Codec) returns (error: Option<RecordError>)
      modifies this`payload, this`message
      ensures Result(Value(), error) == Rewritten(codec, old(Value()))
    {
      var unmarshalled := Unmarshalled(codec, txType, payload);
      if unmarshalled.None? {
        return Some(OtherError);
      }
      if unmarshalled.value.NoMessage? {
        return None;
      }
      var normal := RecordTransforms.NormaliseMessage(unmarshalled.value, codec.location, codec.number);
      var marshalled := codec.marshal(normal, vin);
      message := normal;
      if marshalled.None? {
        payload := [];
        return Some(OtherError);
      }
      payload := marshalled.value;
      error := None;
    }

    method ApplyRecordTransforms(codec: Codec) returns (error: Option<RecordError>)
      modifies this`payload, this`message
      ensures Result(Value(), error) == Transformed(codec, old(Value()))
    {
      hide Rewritten;
      error := ApplyProtoRecordTransforms(codec);
      if error.Some? {
        return;
      }
      if transmitDecoded {
        var json := codec.json(message, vin);
        if json.None? {
          payload := [];
          return Some(OtherError);
        }
        payload := json.value;
      }
    }
  }

  class BinarySerializer {
    const context: Context

    constructor (context: Context)
      ensures this.context == context
    {
      this.context := context;
    }

    method GuessError(record: Record, msg: Slice) returns (error: RecordError)
      requires record.rawBytes == msg.bytes
      modifies record
      ensures Result(record.Value(), Some(error)) == Guessed(old(record.Value()), msg)
    {
      hide EnvelopeFromBytes, Txid, MessageType;
      match EnvelopeFromBytes(msg) {
        case Rejected => error := UnknownMessageType("", 0);
        case Panicked => error := OtherError;
        case Ok((envelope, _)) =>
          var txid := Txid(envelope);
          if !txid.Ok? {
            return OtherError;
          }
          record.txid := ToString(txid.value);
          var messageType := MessageType(envelope);
          error := if messageType.Ok? then UnknownMessageType(record.txid, messageType.value) else OtherError;
      }
    }

    method Deserialize(msg: Slice, socketId: string, now: int) returns (record: Record, error: Option<RecordError>)
      ensures fresh(record) && Result(record.Value(), error) == Deserialized(context, msg, socketId, now)
    {
      hide FromBytes, StreamToBytes, Guessed, EpochMs, Authorized;
      record := new Record(msg.bytes, socketId);
      var parsed := FromBytes(msg);
      if parsed.Rejected? {
        var guessed := GuessError(record, msg);
        return record, Some(guessed);
      }
      if parsed.Panicked? {
        return record, Some(OtherError);
      }
      ParsedAgrees(msg);
      var message := new StreamMessage.Parsed(parsed.value);
      message.Set(SetDeliveredAt(now));
      record.rawBytes := message.Encode();
      record.txType := ToString(message.fields.topic);
      record.txid := ToString(message.fields.txid);
      record.vin := context.identity.deviceId;
      record.payload := message.fields.payload;
      record.clientVersion := context.identity.clientVersion;
      error := if Authorized(context, record.txType, ToString(message.fields.senderId)) then None else Some(OtherError);
    }

    method NewRecord(codec: Codec, msg: Slice, socketId: string, transmitDecoded: bool, now: int)
      returns (record: Record, error: Option<RecordError>)
      ensures fresh(record) && Result(record.Value(), error) == RecordFor(context, codec, msg, socketId, transmitDecoded, now)
    {
      hide Deserialized, Transformed;
      if |msg.bytes| > MESSAGE_LIMIT {
        record := new Record([], "");
        record.transmitDecoded := transmitDecoded;
        return record, Some(MessageTooBig);
      }
      record, error := Deserialize(msg, socketId, now);
      record.transmitDecoded := transmitDecoded;
      if error.None? {
        error := record.ApplyRecordTransforms(codec);
      }
    }
  }

  // ---------------------------------------------------------------- what becomes of a message

  /** A message is accepted exactly when it is at most a megabyte, parses as a stream message, is of a
      type that has a dispatch rule or names the connected device as its sender, and its payload can
      be unmarshalled, marshalled again and, if that is asked for, turned into JSON. */
  lemma AcceptedExactly(c: Context, codec: Codec, msg: Slice, socketId: string, transmitDecoded: bool, now: int)
    ensures var r := RecordFor(c, codec, msg, socketId, transmitDecoded, now);
            var parsed := FromBytes(msg);
            r.error.None? <==>
            && |msg.bytes| <= 1_000_000 && parsed.Ok?
            && var topic, sender := ToString(parsed.value.fields.topic), ToString(parsed.value.fields.senderId);
               (topic in c.rules || sender == c.identity.senderId || sender == c.identity.deviceId)
               && Rewritable(codec, topic, parsed.value.fields.payload, c.identity.deviceId, transmitDecoded)
  {
    hide FromBytes, StreamToBytes, EnvelopeFromBytes, Txid, MessageType, Unmarshalled, EpochMs;
  }

  /** Nothing goes wrong with the payload on its way to the producers. */
  predicate Rewritable(codec: Codec, txType: string, payload: Bytes, vin: string, transmitDecoded: bool) {
    var m := Unmarshalled(codec, txType, payload);
    && m.Some?
    && var normal := RecordTransforms.Normalised(m.value, codec.location, codec.number);
       && (txType in {"alerts", "errors", "V", "connectivity"} ==> codec.marshal(normal, vin).Some?)
       && (transmitDecoded ==> codec.json(normal, vin).Some?)
  }

  /** What the producers of an accepted message are given: the message, normalised and with the VIN
      put in, as protobuf or as JSON; a payload of another type as it came, or the JSON of no message. */
  lemma AcceptedPayload(c: Context, codec: Codec, msg: Slice, socketId: string, transmitDecoded: bool, now: int)
    ensures var r := RecordFor(c, codec, msg, socketId, transmitDecoded, now);
            r.error.None? ==>
              && FromBytes(msg).Ok? && r.record.vin == c.identity.deviceId
              && if transmitDecoded then codec.json(r.record.message, r.record.vin) == Some(r.record.payload)
                 else if r.record.txType in {"alerts", "errors", "V", "connectivity"} then
                   codec.marshal(r.record.message, r.record.vin) == Some(r.record.payload)
                 else r.record.payload == FromBytes(msg).value.fields.payload
  {
    hide FromBytes, StreamToBytes, EnvelopeFromBytes, Txid, MessageType, EpochMs, RecordTransforms.Normalised, Authorized;
  }

  /** What is left of the payload of a message that is refused although it parses: a sender that is
      not authorized, or a payload that cannot be unmarshalled, keeps it; one that cannot be
      marshalled again, or has no JSON, is lost. */
  lemma RefusedPayload(c: Context, codec: Codec, msg: Slice, socketId: string, transmitDecoded: bool, now: int)
    requires |msg.bytes| <= MESSAGE_LIMIT && FromBytes(msg).Ok?
    ensures var r := RecordFor(c, codec, msg, socketId, transmitDecoded, now);
            var f := FromBytes(msg).value.fields;
            var sender := ToString(f.senderId);
            r.error.Some? ==>
              && r.error.value.OtherError?
              && r.record.payload ==
                 if !(r.record.txType in c.rules || sender == c.identity.senderId || sender == c.identity.deviceId)
                    || Unmarshalled(codec, r.record.txType, f.payload).None?
                 then f.payload else []
  {
    hide FromBytes, StreamToBytes, EnvelopeFromBytes, Txid, MessageType, EpochMs, RecordTransforms.Normalised, Unmarshalled;
  }

  /** Every message, even one that makes the parser panic, yields a record and an error of the
      right kind; no message is ever reported as coming from an unauthorized sender. */
  lemma EveryMessageIsClassified(c: Context, codec: Codec, msg: Slice, socketId: string, transmitDecoded: bool, now: int)
    ensures var r := RecordFor(c, codec, msg, socketId, transmitDecoded, now);
            && r.error != Some(UnauthorizedSenderId)
            && (r.error == Some(MessageTooBig) <==> |msg.bytes| > MESSAGE_LIMIT)
            && (r.error == Some(MessageTooBig) ==> r.record == BLANK.(transmitDecoded := transmitDecoded))
            && (r.error != Some(MessageTooBig) ==> r.record.socketId == socketId)
            && (r.error.Some? && r.error.value.UnknownMessageType? ==>
                  && FromBytes(msg) == Rejected && r.record.txType == "" && r.record.payload == []
                  && r.record.rawBytes == msg.bytes && r.record.txid == r.error.value.txid)
            && (|msg.bytes| <= MESSAGE_LIMIT && FromBytes(msg) == Panicked ==>
                  r.error == Some(OtherError) && r.record == BLANK.(rawBytes := msg.bytes, socketId := socketId, transmitDecoded := transmitDecoded))
  {
    hide FromBytes, StreamToBytes, Authorized, EnvelopeFromBytes, Txid, MessageType;
  }

  /** The record has the message of the payload, normalised. */
  predicate IsMessage(codec: Codec, record: RecordValue, payload: Bytes) {
    var m := Unmarshalled(codec, record.txType, payload);
    m.Some? && m.value.OfType(record.txType) && record.message == RecordTransforms.Normalised(m.value, codec.location, codec.number)
  }

  /** The message that producers convert is that of the payload as it came, normalised; messages that
      are no stream messages, or are of another type, have none. */
  lemma RecordMessage(c: Context, codec: Codec, msg: Slice, socketId: string, transmitDecoded: bool, now: int)
    ensures var r := RecordFor(c, codec, msg, socketId, transmitDecoded, now);
            && (r.error.None? ==>
                  && FromBytes(msg).Ok? && r.record.vin == c.identity.deviceId
                  && IsMessage(codec, r.record, FromBytes(msg).value.fields.payload))
            && (r.error.Some? && r.error.value.UnknownMessageType? ==> r.record.message == RecordTransforms.NoMessage)
  {
    hide FromBytes, StreamToBytes, Authorized, EnvelopeFromBytes, Txid, MessageType, EpochMs, Unmarshalled, RecordTransforms.Normalise;
  }

  /** What the payload of an accepted message was unmarshalled to, by its type, and how that was
      normalised, field by field. */
  lemma RecordIsNormal(c: Context, codec: Codec, msg: Slice, socketId: string, transmitDecoded: bool, now: int)
    ensures var r := RecordFor(c, codec, msg, socketId, transmitDecoded, now);
            r.error.None? ==>
              && FromBytes(msg).Ok?
              && var payload, txType := FromBytes(msg).value.fields.payload, r.record.txType;
                 if txType == "V" then
                   && codec.signals(payload).Some?
                   && RecordTransforms.IsNormal(RecordTransforms.Signals(codec.signals(payload).value), r.record.message, codec.location, codec.number)
                 else if txType == "alerts" then
                   && codec.alerts(payload).Some?
                   && RecordTransforms.IsNormal(RecordTransforms.Alerts(codec.alerts(payload).value), r.record.message, codec.location, codec.number)
                 else if txType == "errors" then
                   codec.errors(payload).Some? && r.record.message == RecordTransforms.Errors(codec.errors(payload).value)
                 else if txType == "connectivity" then codec.connectivity(payload) && r.record.message == RecordTransforms.Connectivity
                 else r.record.message == RecordTransforms.NoMessage
  {
    hide RecordFor, FromBytes, RecordTransforms.Normalised, RecordTransforms.IsNormalSignal, RecordTransforms.IsNormalAlerts;
    RecordMessage(c, codec, msg, socketId, transmitDecoded, now);
    var r := RecordFor(c, codec, msg, socketId, transmitDecoded, now);
    if r.error.None? {
      var m := Unmarshalled(codec, r.record.txType, FromBytes(msg).value.fields.payload);
      RecordTransforms.NormalisedIsNormal(m.value, codec.location, codec.number);
    }
  }

  /** A message that is not a stream message is reported as being of an unknown type, with the
      type it names, whenever its envelope can be read. */
  lemma OtherTypesAreUnknown(c: Context, msg: Slice, socketId: string, now: int)
    requires FromBytes(msg) == Rejected
    ensures var r := Deserialized(c, msg, socketId, now);
            r.error.Some? && r.error.value.UnknownMessageType?
            && match EnvelopeFromBytes(msg)
               case Ok((envelope, _)) =>
                 && MessageType(envelope) == Ok(r.error.value.guessedType) && r.error.value.guessedType != STREAM
                 && Txid(envelope).Ok? && r.record.txid == ToString(Txid(envelope).value)
               case _ => r.record.txid == ""
  {
    hide StreamToBytes, Authorized, EnvelopeFromBytes, Txid, MessageType, Topic, ReadFields;
  }

  /** Guessing what was meant by a message that is no stream message never comes to an envelope, a txid or
      a type that cannot be read: the parser would have panicked at them before. */
  lemma GuessingSucceeds(msg: Slice)
    requires FromBytes(msg) == Rejected
    ensures !EnvelopeFromBytes(msg).Panicked?
    ensures EnvelopeFromBytes(msg).Ok? ==>
              var envelope := EnvelopeFromBytes(msg).value.0;
              Txid(envelope).Ok? && MessageType(envelope).Ok? && MessageType(envelope) != Ok(4)
  {
    hide EnvelopeFromBytes, Txid, Topic, MessageType, ReadFields;
  }

  lemma DeserializedKeepsFields(c: Context, msg: Slice, socketId: string, now: int, spare: Spare)
    requires |msg.bytes| <= MESSAGE_LIMIT && FromBytes(msg).Ok?
    ensures var record := Deserialized(c, msg, socketId, now).record;
            var fields := FromBytes(msg).value.fields;
            && record == BLANK.(rawBytes := record.rawBytes, socketId := socketId, txid := ToString(fields.txid),
               txType := ToString(fields.topic), vin := c.identity.deviceId, payload := fields.payload,
               clientVersion := c.identity.clientVersion)
            && FromBytes(Slice(record.rawBytes, spare)).Ok?
            && FromBytes(Slice(record.rawBytes, spare)).value.fields == fields.(deliveredAt := EpochMs(now))
  {
    hide FromBytes, StreamToBytes, Authorized, EpochMs;
    var fields := FromBytes(msg).value.fields;
    ParsedSize(msg);
    StreamRoundTrip(fields.(deliveredAt := EpochMs(now)), spare);
  }

  /** The record of any stream message, however it was laid out and whether or not it is accepted,
      carries bytes that parse to the same fields with only the delivery time replaced, by the time
      now in milliseconds; and names transaction, type, device and connection. */
  lemma RawBytesKeepFields(c: Context, codec: Codec, msg: Slice, socketId: string, transmitDecoded: bool, now: int, spare: Spare)
    requires |msg.bytes| <= MESSAGE_LIMIT && FromBytes(msg).Ok?
    requires -0x8000_0000_0000_0000 <= now < 0x8000_0000_0000_0000
    ensures var record := RecordFor(c, codec, msg, socketId, transmitDecoded, now).record;
            var fields := FromBytes(msg).value.fields;
            && record == BLANK.(rawBytes := record.rawBytes, socketId := socketId, txid := ToString(fields.txid),
               txType := ToString(fields.topic), vin := c.identity.deviceId, payload := record.payload,
               clientVersion := c.identity.clientVersion, transmitDecoded := transmitDecoded, message := record.message)
            && var raw := FromBytes(Slice(record.rawBytes, spare));
               && raw.Ok? && raw.value.fields == fields.(deliveredAt := raw.value.fields.deliveredAt)
               && IsMilliseconds(raw.value.fields.deliveredAt, now)
  {
    hide FromBytes, Deserialized, Unmarshalled, RecordTransforms.Normalised, EpochMs;
    DeserializedKeepsFields(c, msg, socketId, now, spare);
    DeliveredInMilliseconds(now);
  }

  // ---------------------------------------------------------------- responses

  /** Both responses carry the txid of their record, and nothing else but its type, or that the message
      had the wrong format; and neither can be taken for the other. */
  lemma ResponsesAreDistinct(record: RecordValue, spare: Spare)
    requires |record.txid| + |record.txType| <= SIZE_LIMIT - 0x100
    ensures var ack := AckFromBytes(Slice(AckOf(record), spare));
            && ack.Ok? && ack.value.txid == ToBytes(record.txid) && ack.value.topic == ToBytes(record.txType)
            && ack.value.messageId == [] && FromBytes(Slice(AckOf(record), spare)) == Rejected
    ensures var error := FromBytes(Slice(ErrorOf(record), spare));
            && error.Ok?
            && error.value.fields == Fields([], [], ToBytes(record.txid), ToBytes("incorrect message format"), 0, [], [], [], 0)
            && AckFromBytes(Slice(ErrorOf(record), spare)) == Rejected
  {
    hide FromBytes, AckFromBytes, StreamToBytes, AckToBytes;
    AckRoundTrip(ToBytes(record.txid), ToBytes(record.txType), [], spare);
    var f := Fields([], [], ToBytes(record.txid), ToBytes(FORMAT_ERROR), 0, [], [], [], 0);
    StreamRoundTrip(f, spare);
    StreamIsNoAck(f, spare);
  }

  /** No name in a record is longer than a message and its spare bytes. */
  lemma RecordSmall(c: Context, codec: Codec, msg: Slice, socketId: string, transmitDecoded: bool, now: int)
    ensures var record := RecordFor(c, codec, msg, socketId, transmitDecoded, now).record;
            |record.txid| <= MESSAGE_LIMIT + SPARE_LIMIT && |record.txType| <= MESSAGE_LIMIT + SPARE_LIMIT
  {
    hide ReadBytesField, ReadByteField, ReadUnionField, StreamToBytes, Authorized, SenderId, Payload, DeviceType, DeviceId, DeliveredAt, CreatedAt;
    hide Unmarshalled, RecordTransforms.Normalised;
    ParsedSize(msg);
    if Root(msg).Ok? {
      VectorWithinBuffer(Root(msg).value, 4);
    }
  }

  /** What the vehicle gets back for a message that parses as a stream message names its transaction
      and, if it is an acknowledgement, its topic. */
  lemma ResponsesNameTheRequest(c: Context, codec: Codec, msg: Slice, socketId: string, transmitDecoded: bool, now: int, spare: Spare)
    requires |msg.bytes| <= MESSAGE_LIMIT && FromBytes(msg).Ok?
    ensures var record := RecordFor(c, codec, msg, socketId, transmitDecoded, now).record;
            var request := FromBytes(msg).value.fields;
            && AckFromBytes(Slice(AckOf(record), spare)).Ok? && AckFromBytes(Slice(AckOf(record), spare)).value.txid == request.txid
            && AckFromBytes(Slice(AckOf(record), spare)).value.topic == request.topic
            && FromBytes(Slice(ErrorOf(record), spare)).Ok? && FromBytes(Slice(ErrorOf(record), spare)).value.fields.txid == request.txid
  {
    hide FromBytes, AckFromBytes, StreamToBytes, AckToBytes, Authorized, AckOf, ErrorOf;
    var record := RecordFor(c, codec, msg, socketId, transmitDecoded, now).record;
    var request := FromBytes(msg).value.fields;
    ParsedSize(msg);
    BytesOfString(request.txid);
    BytesOfString(request.topic);
    ResponsesAreDistinct(record, spare);
  }

  /** The root table of the message has a txid that can be read. */
  predicate Names(msg: Slice, txid: Bytes) {
    txid != [] && Root(msg).Ok? && Txid(Root(msg).value) == Ok(txid)
  }

  /** The message is not too big, has a union field, and does not make the parser panic. */
  predicate Recognised(msg: Slice) {
    |msg.bytes| <= MESSAGE_LIMIT && EnvelopeFromBytes(msg).Ok? && !FromBytes(msg).Panicked?
  }

  /** The record of a message that names a transaction has that txid if the message is recognised,
      and none at all if it is not. */
  lemma RecordNames(c: Context, codec: Codec, msg: Slice, socketId: string, transmitDecoded: bool, now: int, txid: Bytes)
    requires Names(msg, txid)
    ensures var record := RecordFor(c, codec, msg, socketId, transmitDecoded, now).record;
            && record.txid == (if Recognised(msg) then ToString(txid) else "")
            && |record.txid| <= MESSAGE_LIMIT + SPARE_LIMIT && |record.txType| <= MESSAGE_LIMIT + SPARE_LIMIT
  {
    hide ReadBytesField, ReadByteField, ReadUnionField, StreamToBytes, Authorized, SenderId, Payload, DeviceType, DeviceId, DeliveredAt, CreatedAt;
    hide Unmarshalled, RecordTransforms.Normalised;
    ParsedSize(msg);
    VectorWithinBuffer(Root(msg).value, 4);
  }

  /** Every response to a message that names a transaction, acknowledgement or error, names the same
      one if and only if the message is not too big, has a union field and does not make the parser
      panic; otherwise it names none. */
  lemma ResponsesNameExactly(c: Context, codec: Codec, msg: Slice, socketId: string, transmitDecoded: bool, now: int, txid: Bytes, spare: Spare)
    requires Names(msg, txid)
    ensures var record := RecordFor(c, codec, msg, socketId, transmitDecoded, now).record;
            var ack, error := AckFromBytes(Slice(AckOf(record), spare)), FromBytes(Slice(ErrorOf(record), spare));
            && ack.Ok? && error.Ok?
            && (ack.value.txid == txid <==> Recognised(msg)) && (error.value.fields.txid == txid <==> Recognised(msg))
            && (!Recognised(msg) ==> ack.value.txid == [] && error.value.fields.txid == [])
  {
    hide RecordFor, FromBytes, AckFromBytes, AckOf, ErrorOf, Recognised, Root, Txid;
    RecordNames(c, codec, msg, socketId, transmitDecoded, now, txid);
    BytesOfString(txid);
    ResponsesAreDistinct(RecordFor(c, codec, msg, socketId, transmitDecoded, now).record, spare);
  }

  /** Whatever a message that is not recognised may name: both possible responses to it are anonymous. */
  lemma UnrecognisedIsAnonymous(c: Context, codec: Codec, msg: Slice, socketId: string, transmitDecoded: bool, now: int, spare: Spare)
    requires !Recognised(msg)
    ensures var record := RecordFor(c, codec, msg, socketId, transmitDecoded, now).record;
            var ack, error := AckFromBytes(Slice(AckOf(record), spare)), FromBytes(Slice(ErrorOf(record), spare));
            record.txid == "" && ack.Ok? && ack.value.txid == [] && error.Ok? && error.value.fields.txid == []
  {
    hide AckFromBytes, AckOf, ErrorOf, ReadBytesField, ReadByteField, ReadUnionField, StreamToBytes, Authorized;
    var record := RecordFor(c, codec, msg, socketId, transmitDecoded, now).record;
    assert record.txid == "" && record.txType == "";
    ResponsesAreDistinct(record, spare);
  }

  // Each of the three conditions can fail while the other two hold.

  /** There are messages that name a transaction and are only too big. */
  lemma OversizedMessage(txid: Bytes, spare: Spare) returns (msg: Slice)
    requires 0 < |txid| <= MESSAGE_LIMIT
    ensures msg.spare == spare && Names(msg, txid) && |msg.bytes| > MESSAGE_LIMIT && EnvelopeFromBytes(msg).Ok? && FromBytes(msg).Ok?
  {
    hide HasStream, HasEnvelope, FromBytes, StreamToBytes, Root, Txid, EnvelopeFromBytes, Topic, MessageType, MessageId, View;
    var f := Fields([], [], txid, seq(MESSAGE_LIMIT + |spare| + 1, _ => 0), 0, [], [], [], 0);
    msg := Slice(StreamToBytes(f), spare);
    var e, _ := StreamHeld(f);
    StreamRoundTrip(f, spare);
    ParsedSize(msg);
    EnvelopeReads(msg.bytes, spare, e, txid, [], STREAM, []);
  }

  /** There are messages that name a transaction and only make the parser panic, which is recovered
      before the txid is noted: their stream table is a byte vector. */
  lemma PanickingMessage(txid: Bytes, spare: Spare) returns (msg: Slice)
    requires 0 < |txid| <= 400_000
    ensures msg.spare == spare && Names(msg, txid) && |msg.bytes| <= MESSAGE_LIMIT && EnvelopeFromBytes(msg).Ok? && FromBytes(msg).Panicked?
  {
    hide HasHeader, HasVector, FromBytes, Root, Txid, EnvelopeFromBytes;
    var buf := ImpostorPanics(txid, spare);
    msg := Slice(buf, spare);
  }

  /** There are messages that name a transaction and only lack the union field. */
  lemma HeaderOnlyMessage(txid: Bytes, spare: Spare) returns (msg: Slice)
    requires 0 < |txid| <= 400_000
    ensures msg.spare == spare && Names(msg, txid) && |msg.bytes| <= MESSAGE_LIMIT && EnvelopeFromBytes(msg).Rejected? && FromBytes(msg).Rejected?
  {
    hide HasHeader, HasVector, EnvelopeToBytes, Root, Txid, EnvelopeFromBytes;
    msg := Slice(EnvelopeToBytes(EMPTY, txid, [], 0, [], STREAM), spare);
    var e := EnvelopeHeld(EMPTY, txid, [], 0, [], STREAM);
    HeaderReads(msg.bytes, spare, e, txid, [], STREAM, []);
  }
}
