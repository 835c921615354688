/** The wire format of vehicle messages: an envelope table whose union field holds a stream
    message or an acknowledgement. */
module TeslaMessages {
  import opened GoTypes
  import opened FlatBuffers
  import opened FlatBuilder

  const STREAM: Byte := 4
  const STREAM_ACK: Byte := 5

  /** Everything a stream message carries. */
  datatype Fields = Fields(senderId: Bytes, topic: Bytes, txid: Bytes, payload: Bytes, createdAt: U32,
                           messageId: Bytes, deviceType: Bytes, deviceId: Bytes, deliveredAt: U64)
  {
    function Size(): nat {
      |senderId| + |topic| + |txid| + |payload| + |messageId| + |deviceType| + |deviceId|
    }
  }

  /** The builder refuses to grow past 2^30 bytes, so no message it can hold has longer fields. */
  const SIZE_LIMIT: nat := 0x4000_0000

  // ---------------------------------------------------------------- writing

  /** FlatbuffersEnvelopeToBytes, on a builder that already holds the message at `message`. */
  function EnvelopeToBytes(d: Draft, txid: Bytes, topic: Bytes, message: nat, messageId: Bytes, messageType: Byte): (b: Bytes)
    requires message <= |d.bytes|
  {
    var (d1, txidVector) := CreateByteString(d, txid);
    var (d2, topicVector) := CreateByteString(d1, topic);
    var (d3, messageIdVector) := CreateByteString(d2, messageId);
    var (d4, root) := EndObject(WriteAll(StartObject(d3, 5), EnvelopeWrites(txidVector, topicVector, messageType, message, messageIdVector)));
    Finish(d4, root)
  }

  function EnvelopeWrites(txid: nat, topic: nat, messageType: Byte, message: nat, messageId: nat): (ws: seq<FieldWrite>) {
    [RefField(0, txid), RefField(1, topic), ByteField(2, messageType), RefField(3, message), RefField(4, messageId)]
  }

  /** The stream table of FlatbuffersStreamToBytes and the strings it refers to. */
  function StreamBody(f: Fields): (r: (Draft, nat))
    ensures r.1 <= |r.0.bytes|
  {
    var (d1, senderId) := CreateByteString(EMPTY, f.senderId);
    var (d2, payload) := CreateByteString(d1, f.payload);
    var (d3, deviceType) := CreateByteString(d2, f.deviceType);
    var (d4, deviceId) := CreateByteString(d3, f.deviceId);
    EndObject(WriteAll(StartObject(d4, 6), StreamWrites(f, senderId, payload, deviceType, deviceId)))
  }

  /** FlatbuffersStreamToBytes. */
  function StreamToBytes(f: Fields): (b: Bytes) {
    var (d, message) := StreamBody(f);
    EnvelopeToBytes(d, f.txid, f.topic, message, f.messageId, STREAM)
  }

  function StreamWrites(f: Fields, senderId: nat, payload: nat, deviceType: nat, deviceId: nat): (ws: seq<FieldWrite>) {
    [RefField(1, senderId), U32Field(0, f.createdAt), RefField(2, payload),
     RefField(3, deviceType), RefField(4, deviceId), U64Field(5, f.deliveredAt)]
  }

  /** FlatbuffersStreamAckToBytes: the union field refers to an empty byte vector. */
  function AckToBytes(txid: Bytes, topic: Bytes, messageId: Bytes): (b: Bytes) {
    var (d, message) := CreateByteString(EMPTY, []);
    EnvelopeToBytes(d, txid, topic, message, messageId, STREAM_ACK)
  }

  /** The encoders as the source runs them: one builder, updated call by call. */
  method EncodeEnvelope(b: Builder, txid: Bytes, topic: Bytes, message: nat, messageId: Bytes, messageType: Byte)
    returns (encoded: Bytes)
    requires message <= |b.bytes|
    modifies b
    ensures encoded == EnvelopeToBytes(old(b.State()), txid, topic, message, messageId, messageType)
  {
    hide WriteAll, CreateByteString, EndObject, Finish;
    var txidVector := b.AddString(txid);
    var topicVector := b.AddString(topic);
    var messageIdVector := b.AddString(messageId);
    b.Start(5);
    ghost var ws := EnvelopeWrites(txidVector, topicVector, messageType, message, messageIdVector);
    ghost var start := b.State();
    NothingAdded(start, ws);
    AddField(b, RefField(0, txidVector), start, ws, 0);
    AddField(b, RefField(1, topicVector), start, ws, 1);
    AddField(b, ByteField(2, messageType), start, ws, 2);
    AddField(b, RefField(3, message), start, ws, 3);
    AddField(b, RefField(4, messageIdVector), start, ws, 4);
    assert ws[..5] == ws;
    var root := b.End();
    encoded := b.Close(root);
  }

  method EncodeStream(f: Fields) returns (encoded: Bytes)
    ensures encoded == StreamToBytes(f)
  {
    hide WriteAll, CreateByteString, EndObject, EnvelopeToBytes;
    var b := new Builder();
    var senderId := b.AddString(f.senderId);
    var payload := b.AddString(f.payload);
    var deviceType := b.AddString(f.deviceType);
    var deviceId := b.AddString(f.deviceId);
    b.Start(6);
    ghost var ws := StreamWrites(f, senderId, payload, deviceType, deviceId);
    ghost var start := b.State();
    NothingAdded(start, ws);
    AddField(b, RefField(1, senderId), start, ws, 0);
    AddField(b, U32Field(0, f.createdAt), start, ws, 1);
    AddField(b, RefField(2, payload), start, ws, 2);
    AddField(b, RefField(3, deviceType), start, ws, 3);
    AddField(b, RefField(4, deviceId), start, ws, 4);
    AddField(b, U64Field(5, f.deliveredAt), start, ws, 5);
    assert ws[..6] == ws;
    var message := b.End();
    encoded := EncodeEnvelope(b, f.txid, f.topic, message, f.messageId, STREAM);
  }

  method EncodeAck(txid: Bytes, topic: Bytes, messageId: Bytes) returns (encoded: Bytes)
    ensures encoded == AckToBytes(txid, topic, messageId)
  {
    var b := new Builder();
    var message := b.AddString([]);
    encoded := EncodeEnvelope(b, txid, topic, message, messageId, STREAM_ACK);
  }

  lemma NothingAdded(d: Draft, ws: seq<FieldWrite>)
    requires Addable(d, ws)
    ensures WriteAll(d, ws[..0]) == d
  {
  }

  /** The `k`th of the fields `ws` of the table begun at `start`. */
  method AddField(b: Builder, w: FieldWrite, ghost start: Draft, ghost ws: seq<FieldWrite>, ghost k: nat)
    requires k < |ws| && w == ws[k] && Addable(start, ws) && b.State() == WriteAll(start, ws[..k])
    modifies b
    ensures b.State() == WriteAll(start, ws[..k + 1])
  {
    assert ws[..k + 1][..k] == ws[..k];
    b.Add(w);
  }

  // ---------------------------------------------------------------- reading

  function Txid(envelope: Table): (r: Outcome<Bytes>)
    ensures !r.Rejected?
  {
    ReadBytesField(envelope, 4)
  }

  function Topic(envelope: Table): (r: Outcome<Bytes>)
    ensures !r.Rejected?
  {
    ReadBytesField(envelope, 6)
  }

  function MessageType(envelope: Table): (r: Outcome<Byte>)
    ensures !r.Rejected?
  {
    ReadByteField(envelope, 8)
  }

  function MessageId(envelope: Table): (r: Outcome<Bytes>)
    ensures !r.Rejected?
  {
    ReadBytesField(envelope, 12)
  }

  function CreatedAt(stream: Table): (r: Outcome<U32>)
    ensures !r.Rejected?
  {
    ReadU32Field(stream, 4)
  }

  function SenderId(stream: Table): (r: Outcome<Bytes>)
    ensures !r.Rejected?
  {
    ReadBytesField(stream, 6)
  }

  function Payload(stream: Table): (r: Outcome<Bytes>)
    ensures !r.Rejected?
  {
    ReadBytesField(stream, 8)
  }

  function DeviceType(stream: Table): (r: Outcome<Bytes>)
    ensures !r.Rejected?
  {
    ReadBytesField(stream, 10)
  }

  function DeviceId(stream: Table): (r: Outcome<Bytes>)
    ensures !r.Rejected?
  {
    ReadBytesField(stream, 12)
  }

  function DeliveredAt(stream: Table): (r: Outcome<U64>)
    ensures !r.Rejected?
  {
    ReadU64Field(stream, 14)
  }

  /** FlatbuffersEnvelopeFromBytes: the envelope and the table its union field refers to. */
  function EnvelopeFromBytes(value: Slice): Outcome<(Table, Table)> {
    if value.bytes == [] then Rejected
    else
      var envelope :- Root(value);
      var message :- ReadUnionField(envelope, 10);
      if message.None? then Rejected else Ok((envelope, message.value))
  }

  /** All fields of a stream message, as its accessors read them. */
  function ReadFields(envelope: Table, stream: Table): (r: Outcome<Fields>)
    ensures !r.Rejected?
  {
    var topic :- Topic(envelope);
    var txid :- Txid(envelope);
    var senderId :- SenderId(stream);
    var deviceType :- DeviceType(stream);
    var deviceId :- DeviceId(stream);
    var deliveredAt :- DeliveredAt(stream);
    var createdAt :- CreatedAt(stream);
    var payload :- Payload(stream);
    var messageId :- MessageId(envelope);
    Ok(Fields(senderId, topic, txid, payload, createdAt, messageId, deviceType, deviceId, deliveredAt))
  }

  // ---------------------------------------------------------------- layouts

  /** Where an envelope keeps its parts. */
  datatype EnvelopeLayout = EnvelopeLayout(table: TableShape, txid: nat, topic: nat, message: nat, messageId: nat)

  datatype StreamLayout = StreamLayout(table: TableShape, senderId: nat, payload: nat, deviceType: nat, deviceId: nat)

  /** `buf` is an envelope of the given type in any layout the format allows: any order, any
      padding, defaults elided or not. */
  ghost predicate HasEnvelope(buf: Bytes, e: EnvelopeLayout, txid: Bytes, topic: Bytes, messageType: Byte, messageId: Bytes) {
    && HasHeader(buf, e, txid, topic, messageType, messageId)
    && e.table.slots[3] != 0 && HasReference(buf, e.table.slots[3], e.message)
  }

  /** An envelope but for its union field, which may be absent. */
  ghost predicate HasHeader(buf: Bytes, e: EnvelopeLayout, txid: Bytes, topic: Bytes, messageType: Byte, messageId: Bytes) {
    && |buf| < 0x1_0000_0000
    && HasReference(buf, |buf|, e.table.at)
    && HasTable(buf, e.table) && |e.table.slots| == 5
    && HasBytesField(buf, e.table.slots[0], e.txid, txid)
    && HasBytesField(buf, e.table.slots[1], e.topic, topic)
    && HasByteField(buf, e.table.slots[2], messageType)
    && HasBytesField(buf, e.table.slots[4], e.messageId, messageId)
  }

  ghost predicate HasStream(buf: Bytes, s: StreamLayout, f: Fields) {
    && |buf| < 0x1_0000_0000
    && HasTable(buf, s.table) && |s.table.slots| == 6
    && HasU32Field(buf, s.table.slots[0], f.createdAt)
    && HasBytesField(buf, s.table.slots[1], s.senderId, f.senderId)
    && HasBytesField(buf, s.table.slots[2], s.payload, f.payload)
    && HasBytesField(buf, s.table.slots[3], s.deviceType, f.deviceType)
    && HasBytesField(buf, s.table.slots[4], s.deviceId, f.deviceId)
    && HasU64Field(buf, s.table.slots[5], f.deliveredAt)
  }

  // ---------------------------------------------------------------- every layout is read correctly

  lemma HeaderReads(buf: Bytes, spare: Spare, e: EnvelopeLayout, txid: Bytes, topic: Bytes, messageType: Byte, messageId: Bytes)
    requires HasHeader(buf, e, txid, topic, messageType, messageId)
    ensures var envelope := View(Slice(buf, spare), e.table.at);
            && Root(Slice(buf, spare)) == Ok(envelope)
            && Txid(envelope) == Ok(txid) && Topic(envelope) == Ok(topic)
            && MessageType(envelope) == Ok(messageType) && MessageId(envelope) == Ok(messageId)
            && (e.table.slots[3] == 0 ==> EnvelopeFromBytes(Slice(buf, spare)) == Rejected)
  {
    hide Value, ReadBytesField, ReadByteField, HasTable, HasBytesField, HasByteField, Offset;
    BytesFieldReads(buf, spare, e.table, 0, e.txid, txid);
    BytesFieldReads(buf, spare, e.table, 1, e.topic, topic);
    ScalarFieldReads(buf, spare, e.table, 2);
    OffsetReads(buf, spare, e.table, 3);
    BytesFieldReads(buf, spare, e.table, 4, e.messageId, messageId);
  }

  lemma EnvelopeReads(buf: Bytes, spare: Spare, e: EnvelopeLayout, txid: Bytes, topic: Bytes, messageType: Byte, messageId: Bytes)
    requires HasEnvelope(buf, e, txid, topic, messageType, messageId)
    ensures var envelope := View(Slice(buf, spare), e.table.at);
            && Root(Slice(buf, spare)) == Ok(envelope)
            && EnvelopeFromBytes(Slice(buf, spare)) == Ok((envelope, View(Slice(buf, spare), e.message)))
            && Txid(envelope) == Ok(txid) && Topic(envelope) == Ok(topic)
            && MessageType(envelope) == Ok(messageType) && MessageId(envelope) == Ok(messageId)
  {
    hide Value, ReadBytesField, ReadByteField, ReadUnionField, HasTable, HasBytesField, HasByteField, Txid, Topic, MessageType, MessageId;
    HeaderReads(buf, spare, e, txid, topic, messageType, messageId);
    UnionFieldReads(buf, spare, e.table, 3, e.message);
  }

  lemma StreamReads(buf: Bytes, spare: Spare, e: EnvelopeLayout, s: StreamLayout, f: Fields)
    requires HasEnvelope(buf, e, f.txid, f.topic, STREAM, f.messageId) && HasStream(buf, s, f)
    ensures ReadFields(View(Slice(buf, spare), e.table.at), View(Slice(buf, spare), s.table.at)) == Ok(f)
  {
    hide Value, ReadBytesField, ReadByteField, ReadUnionField, ReadU32Field, ReadU64Field;
    hide HasTable, HasBytesField, HasU32Field, HasU64Field, HasEnvelope;
    EnvelopeReads(buf, spare, e, f.txid, f.topic, STREAM, f.messageId);
    ScalarFieldReads(buf, spare, s.table, 0);
    BytesFieldReads(buf, spare, s.table, 1, s.senderId, f.senderId);
    BytesFieldReads(buf, spare, s.table, 2, s.payload, f.payload);
    BytesFieldReads(buf, spare, s.table, 3, s.deviceType, f.deviceType);
    BytesFieldReads(buf, spare, s.table, 4, s.deviceId, f.deviceId);
    ScalarFieldReads(buf, spare, s.table, 5);
  }

  // ---------------------------------------------------------------- the writers produce a layout

  /** A field of a closed table holds what was added to it. */
  lemma FieldHeld(d: Draft, w: FieldWrite, r: Bytes)
    requires Written(d, w) && Extends(d.bytes, r)
    ensures match w
            case RefField(i, target) =>
              if target != 0 then d.vtable[i] != 0 && HasReference(r, d.vtable[i], target) else d.vtable[i] == 0
            case ByteField(i, b) => HasByteField(r, d.vtable[i], b)
            case U32Field(i, n) => HasU32Field(r, d.vtable[i], n)
            case U64Field(i, m) => HasU64Field(r, d.vtable[i], m)
  {
    hide Value;
    if !w.Elided() {
      StoredKept(d.bytes, r, d.vtable[w.slot], w);
    }
  }

  lemma RefHeld(d: Draft, w: FieldWrite, r: Bytes, s: Bytes)
    requires Written(d, w) && w.RefField? && w.target != 0 && Extends(d.bytes, r) && HasVector(r, w.target, s)
    ensures HasBytesField(r, d.vtable[w.slot], w.target, s)
  {
    FieldHeld(d, w, r);
  }

  lemma StringKept(d: Draft, s: Bytes, r: Bytes)
    requires |d.bytes| + |s| < 0x8000_0000 && Extends(CreateByteString(d, s).0.bytes, r)
    ensures HasVector(r, CreateByteString(d, s).1, s) && CreateByteString(d, s).1 > 0
  {
    ByteStringHeld(d, s);
    VectorKept(CreateByteString(d, s).0.bytes, r, CreateByteString(d, s).1, s);
  }

  /** Adding the fields of a fresh table and closing it. */
  lemma TableHeld(d: Draft, slots: nat, ws: seq<FieldWrite>)
    requires |d.bytes| < 0x7FFF_C000 && slots < 0x100 && |ws| <= 8
    requires DistinctSlots(ws) && forall k :: 0 <= k < |ws| ==> ws[k].slot < slots && (ws[k].RefField? ==> ws[k].target <= |d.bytes|)
    ensures Addable(StartObject(d, slots), ws)
    ensures var open := WriteAll(StartObject(d, slots), ws);
            && open.objectEnd <= |open.bytes| && |open.vtable| == slots
            && (forall i :: 0 <= i < slots ==> open.vtable[i] <= |open.bytes|)
            && (forall k :: 0 <= k < |ws| ==> Written(open, ws[k]))
            && Extends(d.bytes, open.bytes)
            && var (closed, at) := EndObject(open);
            && Extends(open.bytes, closed.bytes) && |closed.bytes| <= |d.bytes| + 139 + 2 * slots
            && 0 < at <= |closed.bytes|
            && HasTable(closed.bytes, TableShape(at, |closed.bytes|, |Trim(open.vtable)|, open.vtable))
  {
    hide Write, EndObject, HasTable, Written;
    var start := StartObject(d, slots);
    WriteAllStores(start, ws);
    var open := WriteAll(start, ws);
    assert forall i :: 0 <= i < |open.vtable| ==> SlotInside(open, i);
    ObjectHeld(open);
  }

  lemma FinishHeld(d: Draft, root: nat)
    requires root <= |d.bytes| < 0x7FFF_F000
    ensures var r := Finish(d, root);
            Extends(d.bytes, r) && |r| < |d.bytes| + 16 && HasReference(r, |r|, root)
  {
    hide Value;
    PrepExtends(d, d.minalign, 4);
    var p := Prep(d, d.minalign, 4);
    ReferenceExtends(p, root);
    ExtendsTransitive(d.bytes, p.bytes, Finish(d, root));
  }

  /** The three strings of an envelope, and where they are. */
  ghost function EnvelopeStrings(d: Draft, txid: Bytes, topic: Bytes, messageId: Bytes): (r: (Draft, nat, nat, nat)) {
    var (d1, txidVector) := CreateByteString(d, txid);
    var (d2, topicVector) := CreateByteString(d1, topic);
    var (d3, messageIdVector) := CreateByteString(d2, messageId);
    (d3, txidVector, topicVector, messageIdVector)
  }

  /** Where the parts of an envelope end up. */
  ghost function EnvelopeParts(d: Draft, txid: Bytes, topic: Bytes, message: nat, messageId: Bytes, messageType: Byte): (e: EnvelopeLayout)
    requires message <= |d.bytes|
  {
    var (d1, txidVector) := CreateByteString(d, txid);
    var (d2, topicVector) := CreateByteString(d1, topic);
    var (d3, messageIdVector) := CreateByteString(d2, messageId);
    var open := WriteAll(StartObject(d3, 5), EnvelopeWrites(txidVector, topicVector, messageType, message, messageIdVector));
    var (d4, root) := EndObject(open);
    EnvelopeLayout(TableShape(root, |d4.bytes|, |Trim(open.vtable)|, open.vtable), txidVector, topicVector, message, messageIdVector)
  }

  lemma EnvelopeHeld(d: Draft, txid: Bytes, topic: Bytes, message: nat, messageId: Bytes, messageType: Byte)
    returns (e: EnvelopeLayout)
    requires message <= |d.bytes| && |d.bytes| + |txid| + |topic| + |messageId| < 0x7FFF_8000
    ensures var r := EnvelopeToBytes(d, txid, topic, message, messageId, messageType);
            && Extends(d.bytes, r) && |r| <= |d.bytes| + |txid| + |topic| + |messageId| + 0x100
            && HasHeader(r, e, txid, topic, messageType, messageId)
            && if message == 0 then e.table.slots[3] == 0 else HasEnvelope(r, e, txid, topic, messageType, messageId) && e.message == message
    ensures e == EnvelopeParts(d, txid, topic, message, messageId, messageType)
    ensures var (d3, txidVector, topicVector, messageIdVector) := EnvelopeStrings(d, txid, topic, messageId);
            && e.txid == txidVector && e.topic == topicVector && e.messageId == messageIdVector
            && Extends(d3.bytes, EnvelopeToBytes(d, txid, topic, message, messageId, messageType))
  {
    hide Value, Extends, CreateByteString, EndObject, WriteAll, Finish, HasTable, Written, HasVector, HasBytesField, HasReference;
    ByteStringHeld(d, txid);
    var (d1, txidVector) := CreateByteString(d, txid);
    ByteStringHeld(d1, topic);
    var (d2, topicVector) := CreateByteString(d1, topic);
    ByteStringHeld(d2, messageId);
    var (d3, messageIdVector) := CreateByteString(d2, messageId);
    var ws := EnvelopeWrites(txidVector, topicVector, messageType, message, messageIdVector);
    TableHeld(d3, 5, ws);
    var open := WriteAll(StartObject(d3, 5), ws);
    var (d4, root) := EndObject(open);
    FinishHeld(d4, root);
    var r := Finish(d4, root);
    e := EnvelopeLayout(TableShape(root, |d4.bytes|, |Trim(open.vtable)|, open.vtable), txidVector, topicVector, message, messageIdVector);

    TableKept(d4.bytes, r, e.table);
    ExtendsTransitive(open.bytes, d4.bytes, r);
    ExtendsTransitive(d3.bytes, open.bytes, r);
    ExtendsTransitive(d2.bytes, d3.bytes, r);
    ExtendsTransitive(d1.bytes, d2.bytes, r);
    ExtendsTransitive(d.bytes, d1.bytes, r);
    StringKept(d, txid, r);
    StringKept(d1, topic, r);
    StringKept(d2, messageId, r);
    RefHeld(open, ws[0], r, txid);
    RefHeld(open, ws[1], r, topic);
    FieldHeld(open, ws[2], r);
    FieldHeld(open, ws[3], r);
    RefHeld(open, ws[4], r, messageId);
  }

  /** The four strings of a stream message in an empty buffer, and where they are. */
  ghost function Strings(f: Fields): (r: (Draft, nat, nat, nat, nat)) {
    var (d1, senderId) := CreateByteString(EMPTY, f.senderId);
    var (d2, payload) := CreateByteString(d1, f.payload);
    var (d3, deviceType) := CreateByteString(d2, f.deviceType);
    var (d4, deviceId) := CreateByteString(d3, f.deviceId);
    (d4, senderId, payload, deviceType, deviceId)
  }

  lemma StringsSize(f: Fields)
    requires f.Size() <= SIZE_LIMIT
    ensures var (d, senderId, payload, deviceType, deviceId) := Strings(f);
            && |d.bytes| <= |f.senderId| + |f.payload| + |f.deviceType| + |f.deviceId| + 32
            && 0 < senderId <= |d.bytes| && 0 < payload <= |d.bytes|
            && 0 < deviceType <= |d.bytes| && 0 < deviceId <= |d.bytes|
  {
    hide Extends, CreateByteString, HasVector;
    ByteStringHeld(EMPTY, f.senderId);
    var (d1, _) := CreateByteString(EMPTY, f.senderId);
    ByteStringHeld(d1, f.payload);
    var (d2, _) := CreateByteString(d1, f.payload);
    ByteStringHeld(d2, f.deviceType);
    var (d3, _) := CreateByteString(d2, f.deviceType);
    ByteStringHeld(d3, f.deviceId);
  }

  lemma StringsKept(f: Fields, r: Bytes)
    requires f.Size() <= SIZE_LIMIT && Extends(Strings(f).0.bytes, r)
    ensures var (_, senderId, payload, deviceType, deviceId) := Strings(f);
            && HasVector(r, senderId, f.senderId) && HasVector(r, payload, f.payload)
            && HasVector(r, deviceType, f.deviceType) && HasVector(r, deviceId, f.deviceId)
  {
    hide Extends, CreateByteString, HasVector;
    ByteStringHeld(EMPTY, f.senderId);
    var (d1, _) := CreateByteString(EMPTY, f.senderId);
    ByteStringHeld(d1, f.payload);
    var (d2, _) := CreateByteString(d1, f.payload);
    ByteStringHeld(d2, f.deviceType);
    var (d3, _) := CreateByteString(d2, f.deviceType);
    ByteStringHeld(d3, f.deviceId);
    ExtendsTransitive(d3.bytes, Strings(f).0.bytes, r);
    ExtendsTransitive(d2.bytes, d3.bytes, r);
    ExtendsTransitive(d1.bytes, d2.bytes, r);
    StringKept(EMPTY, f.senderId, r);
    StringKept(d1, f.payload, r);
    StringKept(d2, f.deviceType, r);
    StringKept(d3, f.deviceId, r);
  }

  /** Where the parts of a stream table end up. */
  ghost function StreamParts(f: Fields): (s: StreamLayout) {
    var (d, senderId, payload, deviceType, deviceId) := Strings(f);
    var open := WriteAll(StartObject(d, 6), StreamWrites(f, senderId, payload, deviceType, deviceId));
    var (closed, message) := EndObject(open);
    StreamLayout(TableShape(message, |closed.bytes|, |Trim(open.vtable)|, open.vtable), senderId, payload, deviceType, deviceId)
  }

  lemma StreamBodyHeld(f: Fields) returns (s: StreamLayout)
    requires f.Size() <= SIZE_LIMIT
    ensures var (r, message) := StreamBody(f);
            && |r.bytes| <= |f.senderId| + |f.payload| + |f.deviceType| + |f.deviceId| + 0x100
            && HasStream(r.bytes, s, f) && 0 < message == s.table.at
    ensures s == StreamParts(f)
  {
    hide Value, Extends, CreateByteString, EndObject, WriteAll, HasTable, Written, HasVector, HasBytesField, HasReference;
    var (d, senderId, payload, deviceType, deviceId) := Strings(f);
    StringsSize(f);
    var ws := StreamWrites(f, senderId, payload, deviceType, deviceId);
    TableHeld(d, 6, ws);
    var open := WriteAll(StartObject(d, 6), ws);
    var (closed, message) := EndObject(open);
    var r := closed.bytes;
    s := StreamLayout(TableShape(message, |r|, |Trim(open.vtable)|, open.vtable), senderId, payload, deviceType, deviceId);
    ExtendsTransitive(d.bytes, open.bytes, r);
    StringsKept(f, r);
    RefHeld(open, ws[0], r, f.senderId);
    FieldHeld(open, ws[1], r);
    RefHeld(open, ws[2], r, f.payload);
    RefHeld(open, ws[3], r, f.deviceType);
    RefHeld(open, ws[4], r, f.deviceId);
    FieldHeld(open, ws[5], r);
  }

  lemma BytesFieldKept(a: Bytes, b: Bytes, slot: nat, target: nat, s: Bytes)
    requires Extends(a, b) && HasBytesField(a, slot, target, s)
    ensures HasBytesField(b, slot, target, s)
  {
    hide Value;
    if slot != 0 {
      ReferenceKept(a, b, slot, target);
      VectorKept(a, b, target, s);
    }
  }

  lemma StreamKept(a: Bytes, b: Bytes, s: StreamLayout, f: Fields)
    requires Extends(a, b) && |b| < 0x1_0000_0000 && HasStream(a, s, f)
    ensures HasStream(b, s, f)
  {
    hide Value, Extends, HasTable, HasBytesField;
    TableKept(a, b, s.table);
    ScalarKept(a, b, s.table.slots[0]);
    BytesFieldKept(a, b, s.table.slots[1], s.senderId, f.senderId);
    BytesFieldKept(a, b, s.table.slots[2], s.payload, f.payload);
    BytesFieldKept(a, b, s.table.slots[3], s.deviceType, f.deviceType);
    BytesFieldKept(a, b, s.table.slots[4], s.deviceId, f.deviceId);
    ScalarKept(a, b, s.table.slots[5]);
  }

  lemma ScalarKept(a: Bytes, b: Bytes, slot: nat)
    requires Extends(a, b)
    ensures forall n: U32 :: HasU32Field(a, slot, n) ==> HasU32Field(b, slot, n)
    ensures forall n: U64 :: HasU64Field(a, slot, n) ==> HasU64Field(b, slot, n)
  {
    hide Value;
    if 4 <= slot <= |a| {
      Kept(a, b, |a| - slot, 4);
    }
    if 8 <= slot <= |a| {
      Kept(a, b, |a| - slot, 8);
    }
  }

  lemma StreamHeld(f: Fields) returns (e: EnvelopeLayout, s: StreamLayout)
    requires f.Size() <= SIZE_LIMIT
    ensures var r := StreamToBytes(f);
            && HasEnvelope(r, e, f.txid, f.topic, STREAM, f.messageId) && HasStream(r, s, f) && e.message == s.table.at
            && |r| <= f.Size() + 0x200
    ensures s == StreamParts(f)
    ensures var (d, message) := StreamBody(f); e == EnvelopeParts(d, f.txid, f.topic, message, f.messageId, STREAM)
  {
    hide StreamBody, EnvelopeToBytes, HasEnvelope, HasStream, EnvelopeParts, StreamParts;
    s := StreamBodyHeld(f);
    var (d, message) := StreamBody(f);
    e := EnvelopeHeld(d, f.txid, f.topic, message, f.messageId, STREAM);
    StreamKept(d.bytes, StreamToBytes(f), s, f);
  }

  lemma AckHeld(txid: Bytes, topic: Bytes, messageId: Bytes) returns (e: EnvelopeLayout)
    requires |txid| + |topic| + |messageId| <= SIZE_LIMIT
    ensures HasEnvelope(AckToBytes(txid, topic, messageId), e, txid, topic, STREAM_ACK, messageId)
  {
    ByteStringHeld(EMPTY, []);
    var (d, message) := CreateByteString(EMPTY, []);
    e := EnvelopeHeld(d, txid, topic, message, messageId, STREAM_ACK);
  }

  /** The two tables of a message never have equal vtables, so the builder never finds one to share:
      the envelope stores slot 0 before slot 1, the stream message slot 1 before slot 0. */
  lemma VtablesDiffer(d: Draft, f: Fields, senderId: nat, payload: nat, deviceType: nat, deviceId: nat,
                      e: Draft, txid: nat, topic: nat, messageType: Byte, message: nat, messageId: nat, at: nat, at': nat)
    requires 0 < senderId <= |d.bytes| && payload <= |d.bytes| && deviceType <= |d.bytes| && deviceId <= |d.bytes|
    requires 0 < txid <= |e.bytes| && 0 < topic <= |e.bytes| && message <= |e.bytes| && messageId <= |e.bytes|
    requires at > |WriteAll(StartObject(d, 6), StreamWrites(f, senderId, payload, deviceType, deviceId)).bytes|
    requires at' > |WriteAll(StartObject(e, 5), EnvelopeWrites(txid, topic, messageType, message, messageId)).bytes|
    ensures var a := WriteAll(StartObject(d, 6), StreamWrites(f, senderId, payload, deviceType, deviceId)).vtable;
            var b := WriteAll(StartObject(e, 5), EnvelopeWrites(txid, topic, messageType, message, messageId)).vtable;
            && |Trim(a)| >= 2 && |Trim(b)| >= 2
            && (Entry(a, at, 0) != Entry(b, at', 0) || Entry(a, at, 1) != Entry(b, at', 1))
  {
    hide WriteAll, Trim;
    var ws, vs := StreamWrites(f, senderId, payload, deviceType, deviceId), EnvelopeWrites(txid, topic, messageType, message, messageId);
    StoredOrNot(StartObject(d, 6), ws, 0);
    StoredOrNot(StartObject(d, 6), ws, 1);
    if f.createdAt != 0 {
      StoredInOrder(StartObject(d, 6), ws, 0, 1);
    }
    StoredOrNot(StartObject(e, 5), vs, 0);
    StoredOrNot(StartObject(e, 5), vs, 1);
    StoredInOrder(StartObject(e, 5), vs, 0, 1);
  }

  // ---------------------------------------------------------------- alignment, elision, termination

  /** Counted from the start of a buffer, the place is a multiple of 4. */
  predicate OnWord(buf: Bytes, off: nat) {
    off <= |buf| && (|buf| - off) % 4 == 0
  }

  /** Strings are word-aligned and zero-terminated. */
  ghost predicate HasString(buf: Bytes, off: nat, s: Bytes) {
    OnWord(buf, off) && Terminated(buf, off, s)
  }

  /** What the format asks of the writer, and readers may rely on: everything is aligned to its width,
      strings end with a zero, and values that are the default take no space. */
  ghost predicate IsTidy(buf: Bytes, e: EnvelopeLayout, s: StreamLayout, f: Fields)
    requires |e.table.slots| == 5 && |s.table.slots| == 6
  {
    && |buf| % 4 == 0 && OnWord(buf, e.table.at) && OnWord(buf, s.table.at)
    && HasString(buf, e.txid, f.txid) && HasString(buf, e.topic, f.topic) && HasString(buf, e.messageId, f.messageId)
    && HasString(buf, s.senderId, f.senderId) && HasString(buf, s.payload, f.payload)
    && HasString(buf, s.deviceType, f.deviceType) && HasString(buf, s.deviceId, f.deviceId)
    && (if f.createdAt == 0 then s.table.slots[0] == 0 else OnWord(buf, s.table.slots[0]))
    && (if f.deliveredAt == 0 then s.table.slots[5] == 0
        else s.table.slots[5] <= |buf| && |buf| % 8 == 0 && (|buf| - s.table.slots[5]) % 8 == 0)
  }

  lemma StringTidy(d: Draft, s: Bytes, r: Bytes)
    requires Extends(CreateByteString(d, s).0.bytes, r) && |r| % 4 == 0
    ensures HasString(r, CreateByteString(d, s).1, s)
  {
    hide CreateByteString, Terminated;
    StringAligns(d, s);
    TerminatedKept(CreateByteString(d, s).0.bytes, r, CreateByteString(d, s).1, s);
  }

  /** The strings of the stream table, in whatever buffer they end up. */
  lemma StringsTidy(f: Fields, r: Bytes)
    requires f.Size() <= SIZE_LIMIT && Extends(Strings(f).0.bytes, r) && |r| % 4 == 0
    ensures var (d, senderId, payload, deviceType, deviceId) := Strings(f);
            && HasString(r, senderId, f.senderId) && HasString(r, payload, f.payload)
            && HasString(r, deviceType, f.deviceType) && HasString(r, deviceId, f.deviceId)
  {
    hide Extends, CreateByteString, HasVector, HasString;
    ByteStringHeld(EMPTY, f.senderId);
    var (d1, _) := CreateByteString(EMPTY, f.senderId);
    ByteStringHeld(d1, f.payload);
    var (d2, _) := CreateByteString(d1, f.payload);
    ByteStringHeld(d2, f.deviceType);
    var (d3, _) := CreateByteString(d2, f.deviceType);
    ByteStringHeld(d3, f.deviceId);
    ExtendsTransitive(d3.bytes, Strings(f).0.bytes, r);
    ExtendsTransitive(d2.bytes, d3.bytes, r);
    ExtendsTransitive(d1.bytes, d2.bytes, r);
    StringTidy(EMPTY, f.senderId, r);
    StringTidy(d1, f.payload, r);
    StringTidy(d2, f.deviceType, r);
    StringTidy(d3, f.deviceId, r);
  }

  /** The stream table: where its numbers are, and how much alignment it asks for. */
  lemma StreamBodyTidy(f: Fields)
    requires f.Size() <= SIZE_LIMIT
    ensures var s, (d, message) := StreamParts(f), StreamBody(f);
            && |s.table.slots| == 6 && message == s.table.at && s.table.at % 4 == 0 && d.minalign >= 4
            && Extends(Strings(f).0.bytes, d.bytes)
            && (if f.createdAt == 0 then s.table.slots[0] == 0 else 0 < s.table.slots[0] <= |d.bytes| && s.table.slots[0] % 4 == 0)
            && (if f.deliveredAt == 0 then s.table.slots[5] == 0
                else 0 < s.table.slots[5] <= |d.bytes| && s.table.slots[5] % 8 == 0 && d.minalign >= 8)
  {
    hide Extends, CreateByteString, EndObject, WriteAll, HasTable, Written, HasVector;
    var (d, senderId, payload, deviceType, deviceId) := Strings(f);
    StringsSize(f);
    var ws := StreamWrites(f, senderId, payload, deviceType, deviceId);
    TableHeld(d, 6, ws);
    var start := StartObject(d, 6);
    var open := WriteAll(start, ws);
    WriteAllAligns(start, ws);
    StoredOrNot(start, ws, 1);
    StoredOrNot(start, ws, 5);
    assert !ws[1].Elided() ==> Multiple(open.vtable[ws[1].slot], ws[1].Width());
    assert !ws[5].Elided() ==> Multiple(open.vtable[ws[5].slot], ws[5].Width());
    EndAligns(open);
    ExtendsTransitive(d.bytes, open.bytes, EndObject(open).0.bytes);
  }

  /** The envelope, in front of whatever the draft holds. */
  lemma EnvelopeAligned(d: Draft, txid: Bytes, topic: Bytes, message: nat, messageId: Bytes, messageType: Byte)
    requires message <= |d.bytes| && |d.bytes| + |txid| + |topic| + |messageId| < 0x7FFF_8000
    ensures var e, r := EnvelopeParts(d, txid, topic, message, messageId, messageType), EnvelopeToBytes(d, txid, topic, message, messageId, messageType);
            |e.table.slots| == 5 && |r| % 4 == 0 && OnWord(r, e.table.at) && (d.minalign == 8 ==> |r| % 8 == 0)
  {
    hide Value, Extends, CreateByteString, EndObject, WriteAll, Finish, HasTable, Written, HasVector, Terminated, HasReference;
    ByteStringHeld(d, txid);
    StringAligns(d, txid);
    var (d1, txidVector) := CreateByteString(d, txid);
    ByteStringHeld(d1, topic);
    StringAligns(d1, topic);
    var (d2, topicVector) := CreateByteString(d1, topic);
    ByteStringHeld(d2, messageId);
    StringAligns(d2, messageId);
    var (d3, messageIdVector) := CreateByteString(d2, messageId);
    var ws := EnvelopeWrites(txidVector, topicVector, messageType, message, messageIdVector);
    TableHeld(d3, 5, ws);
    var start := StartObject(d3, 5);
    WriteAllAligns(start, ws);
    FinishedOnWord(WriteAll(start, ws));
  }

  lemma FinishedOnWord(open: Draft)
    requires open.objectEnd <= |open.bytes| && forall i :: 0 <= i < |open.vtable| ==> open.vtable[i] <= |open.bytes|
    ensures var (closed, root) := EndObject(open);
            |Finish(closed, root)| % 4 == 0 && OnWord(Finish(closed, root), root) && (open.minalign == 8 ==> |Finish(closed, root)| % 8 == 0)
  {
    hide EndObject, Finish;
    EndAligns(open);
    var (closed, root) := EndObject(open);
    FinishAligns(closed, root);
    FinishLonger(closed, root);
  }

  lemma FinishLonger(d: Draft, root: nat)
    requires root <= |d.bytes|
    ensures |d.bytes| <= |Finish(d, root)|
  {
    hide LittleEndian;
  }

  lemma EnvelopeTidy(d: Draft, txid: Bytes, topic: Bytes, messageId: Bytes, r: Bytes)
    requires |d.bytes| + |txid| + |topic| + |messageId| < 0x7FFF_8000
    requires Extends(EnvelopeStrings(d, txid, topic, messageId).0.bytes, r) && |r| % 4 == 0
    ensures var (_, txidVector, topicVector, messageIdVector) := EnvelopeStrings(d, txid, topic, messageId);
            HasString(r, txidVector, txid) && HasString(r, topicVector, topic) && HasString(r, messageIdVector, messageId)
  {
    hide Extends, CreateByteString, HasVector, HasString;
    ByteStringHeld(d, txid);
    var (d1, _) := CreateByteString(d, txid);
    ByteStringHeld(d1, topic);
    var (d2, _) := CreateByteString(d1, topic);
    ByteStringHeld(d2, messageId);
    var d3 := CreateByteString(d2, messageId).0;
    ExtendsTransitive(d2.bytes, d3.bytes, r);
    ExtendsTransitive(d1.bytes, d2.bytes, r);
    StringTidy(d, txid, r);
    StringTidy(d1, topic, r);
    StringTidy(d2, messageId, r);
  }

  lemma FinishExtends(a: Bytes, b: Bytes)
    requires Extends(a, b)
    ensures |a| <= |b|
  {
  }

  /** Aligned counting from the end, and so counting from the start. */
  lemma FromTheStart(n: nat, off: nat)
    requires off <= n
    ensures n % 4 == 0 && off % 4 == 0 ==> (n - off) % 4 == 0
    ensures n % 8 == 0 && off % 8 == 0 ==> (n - off) % 8 == 0
  {
  }

  /** The parts of a stream message that lie in the stream table keep their alignment. */
  lemma StreamPartsTidy(f: Fields, d: Draft, r: Bytes)
    requires f.Size() <= SIZE_LIMIT && d == StreamBody(f).0 && Extends(d.bytes, r)
    requires |r| % 4 == 0 && (d.minalign == 8 ==> |r| % 8 == 0)
    ensures var s := StreamParts(f);
            && |s.table.slots| == 6 && OnWord(r, s.table.at)
            && HasString(r, s.senderId, f.senderId) && HasString(r, s.payload, f.payload)
            && HasString(r, s.deviceType, f.deviceType) && HasString(r, s.deviceId, f.deviceId)
            && (if f.createdAt == 0 then s.table.slots[0] == 0 else OnWord(r, s.table.slots[0]))
            && (if f.deliveredAt == 0 then s.table.slots[5] == 0
                else s.table.slots[5] <= |r| && |r| % 8 == 0 && (|r| - s.table.slots[5]) % 8 == 0)
  {
    hide StreamBody, StreamParts, HasString, Extends, Strings;
    StreamBodyTidy(f);
    var slots := StreamParts(f).table.slots;
    FinishExtends(d.bytes, r);
    ExtendsTransitive(Strings(f).0.bytes, d.bytes, r);
    StringsTidy(f, r);
    StreamStrings(f);
    StreamTableInside(f);
    FromTheStart(|r|, StreamParts(f).table.at);
    if f.createdAt != 0 {
      FromTheStart(|r|, slots[0]);
    }
    if f.deliveredAt != 0 {
      FromTheStart(|r|, slots[5]);
    }
  }

  lemma StreamTableInside(f: Fields)
    ensures StreamParts(f).table.at <= |StreamBody(f).0.bytes|
  {
    hide CreateByteString, WriteAll, EndObject;
  }

  lemma StreamStrings(f: Fields)
    ensures var s, (d, senderId, payload, deviceType, deviceId) := StreamParts(f), Strings(f);
            s.senderId == senderId && s.payload == payload && s.deviceType == deviceType && s.deviceId == deviceId
  {
    hide CreateByteString, EndObject, WriteAll;
  }

  /** Encoded stream messages are tidy. */
  lemma StreamIsTidy(f: Fields) returns (e: EnvelopeLayout, s: StreamLayout)
    requires f.Size() <= SIZE_LIMIT
    ensures var r := StreamToBytes(f);
            && HasEnvelope(r, e, f.txid, f.topic, STREAM, f.messageId) && HasStream(r, s, f) && IsTidy(r, e, s, f)
  {
    hide StreamBody, EnvelopeToBytes, HasEnvelope, HasStream, EnvelopeParts, EnvelopeStrings, StreamParts, HasString, Extends, OnWord;
    e, s := StreamHeld(f);
    var held := StreamBodyHeld(f);
    var (d, message) := StreamBody(f);
    var r := StreamToBytes(f);
    EnvelopeAligned(d, f.txid, f.topic, message, f.messageId, STREAM);
    var envelope := EnvelopeHeld(d, f.txid, f.topic, message, f.messageId, STREAM);
    EnvelopeTidy(d, f.txid, f.topic, f.messageId, r);
    StreamPartsTidy(f, d, r);
  }
}
