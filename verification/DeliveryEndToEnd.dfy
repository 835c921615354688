/** What an acknowledgement on the wire tells the vehicle, from the bytes it reads back to the
    bytes that were read and to the data store that vouches for them. */
module DeliveryEndToEnd {
  import opened GoTypes
  import opened Dispatchers
  import opened Serializer
  import opened SocketManagers
  import opened Delivery
  import opened DeliveryQueues
  import DeliveryConservation
  import DeliveryRouting
  import DeliverySafety
  import DeliverySteps
  import StreamMessages
  import FlatBuffers
  import TeslaMessages
  import SocketRegistry
  import ReliableAckConfig

  // ---------------------------------------------------------------- where confirmed records come from

  /** The record has been handed to the producer by the connection that made it. */
  ghost predicate WasTried(s: State, rec: Rec, d: Dispatcher) {
    rec.owner < |s.sockets| && Do(rec, Produce(d)) in s.sockets[rec.owner].done
  }

  ghost predicate Traced(s: State) {
    && (forall rec :: rec in s.kafkaPending ==> WasTried(s, rec, Kafka))
    && (forall i :: 0 <= i < |s.confirmed| ==> WasTried(s, s.confirmed[i].rec, s.confirmed[i].dispatcher))
  }

  lemma DoneGrows(sv: Server, s: State, l: Label, rec: Rec, d: Dispatcher)
    requires Enabled(s, l) && WasTried(s, rec, d)
    ensures WasTried(Next(sv, s, l), rec, d)
  {
    hide Next, InputTasks, PassesAfter;
    var c := rec.owner;
    MoreSockets(sv, s, l);
    SocketChanges(sv, s, l, c);
  }

  lemma MoreSockets(sv: Server, s: State, l: Label)
    requires Enabled(s, l)
    ensures |s.sockets| <= |Next(sv, s, l).sockets|
  {
    hide StepAt, Announced, Enqueued, ConfirmsNow;
  }

  /** Whatever is new in Kafka's hands, or among the confirmations, comes from this head. */
  ghost predicate NewFrom(s: State, s': State, head: seq<Task>) {
    && (forall rec :: rec in s'.kafkaPending && rec !in s.kafkaPending ==> head == [Do(rec, Produce(Kafka))])
    && (forall i :: |s.confirmed| <= i < |s'.confirmed| ==>
          var x := s'.confirmed[i];
          head == [Do(x.rec, Produce(x.dispatcher))] || (x.dispatcher == Kafka && x.rec in s.kafkaPending))
    && s.confirmed <= s'.confirmed
  }

  lemma EffectIsNew(sv: Server, s: State, l: Label)
    requires AtSocket(l) && Enabled(s, l)
    ensures NewFrom(s, EffectAt(sv, s, l), if l.Dispatch? then [s.sockets[l.c].todo[0]] else [])
  {
    hide Confirms, SocketRegistry.After;
  }

  lemma NewlyTraced(sv: Server, s: State, l: Label)
    requires Enabled(s, l)
    ensures NewFrom(s, Next(sv, s, l), if l.Dispatch? then [s.sockets[l.c].todo[0]] else [])
  {
    hide StepAt, Announced, Enqueued, EffectAt, SocketRegistry.After;
    if AtSocket(l) {
      EffectIsNew(sv, s, l);
    }
  }

  /** A dispatch that has been tried is done. */
  lemma HeadIsDone(sv: Server, s: State, l: Label)
    requires Enabled(s, l) && l.Dispatch? && s.sockets[l.c].todo != [] && s.sockets[l.c].todo[0].rec.owner == l.c
    ensures s.sockets[l.c].todo[0].Do? && s.sockets[l.c].todo[0].act.Produce?
    ensures WasTried(Next(sv, s, l), s.sockets[l.c].todo[0].rec, s.sockets[l.c].todo[0].act.dispatcher)
  {
    hide PassesAfter, ConfirmsNow;
    var k := s.sockets[l.c];
    assert (k.done + [k.todo[0]])[|k.done|] == k.todo[0];
  }

  lemma TracedStep(sv: Server, s: State, l: Label)
    requires Enabled(s, l) && Traced(s)
    requires l.Dispatch? ==> s.sockets[l.c].todo != [] && s.sockets[l.c].todo[0].rec.owner == l.c
    ensures Traced(Next(sv, s, l))
  {
    hide Next, Enabled, WasTried;
    NewlyTraced(sv, s, l);
    if l.Dispatch? {
      HeadIsDone(sv, s, l);
    }
    assert forall i :: 0 <= i < |s.confirmed| ==> Next(sv, s, l).confirmed[i] == s.confirmed[i];
    forall rec, d | WasTried(s, rec, d)
      ensures WasTried(Next(sv, s, l), rec, d)
    {
      DoneGrows(sv, s, l, rec, d);
    }
  }

  lemma {:induction false} TracedHolds(sv: Server, run: seq<Moment>)
    requires WellConfigured(sv) && IsRun(sv, run)
    ensures Traced(After(run))
  {
    hide Next, Enabled, Traced, WellConfigured, DeliverySafety.LoopsSafe, DeliverySafety.SocketSafe;
    if run == [] {
      InitiallyTraced();
    } else {
      LastStep(sv, run);
      var before, l := run[..|run| - 1], run[|run| - 1].step;
      var s := After(before);
      TracedHolds(sv, before);
      DeliverySafety.SafeHolds(sv, before);
      HeadIsOwn(sv, s, l);
      TracedStep(sv, s, l);
    }
  }

  lemma HeadIsOwn(sv: Server, s: State, l: Label)
    requires Enabled(s, l) && DeliverySafety.Safe(sv, s)
    ensures l.Dispatch? ==> s.sockets[l.c].todo != [] && s.sockets[l.c].todo[0].rec.owner == l.c
  {
    hide DeliverySafety.IsConfirmed;
    if l.Dispatch? {
      assert DeliverySafety.SocketSafe(sv, s.confirmed, l.c, s.sockets[l.c]);
      assert DeliverySafety.TaskSafe(sv, s.confirmed, l.c, s.sockets[l.c].uuid, s.sockets[l.c].todo[0]);
    }
  }

  lemma InitiallyTraced()
    ensures Traced(INITIAL)
  {
  }

  // ---------------------------------------------------------------- genuine records

  /** The record is what one of the inputs of its connection was parsed into. */
  ghost predicate Genuine(sv: Server, s: State, rec: Rec) {
    && rec.owner < |s.sockets| && rec.number < |s.sockets[rec.owner].inputs|
    && rec.value == Parsed(ConnectionOf(sv, s.sockets[rec.owner]), s.sockets[rec.owner].inputs[rec.number])
  }

  /** Every task stems from the input its record is numbered by. */
  lemma {:induction false} TasksAreGenuine(c: nat, conn: Connection, inputs: seq<Input>, task: Task)
    requires task in TasksOf(c, conn, inputs)
    ensures task.Do? && task.rec.owner == c && task.rec.number < |inputs|
    ensures task.rec.value == Parsed(conn, inputs[task.rec.number])
    ensures task.act in Reached(task.rec.value, ActsFor(conn, inputs[task.rec.number]))
  {
    hide Parsed, ActsFor, Reached, ReachedTasks;
    var n := |inputs| - 1;
    if task in TasksOf(c, conn, inputs[..n]) {
      TasksAreGenuine(c, conn, inputs[..n], task);
    } else {
      ReachedAreTasks(Rec(c, n, Parsed(conn, inputs[n])), ActsFor(conn, inputs[n]));
    }
  }

  lemma DoneIsGenuine(sv: Server, run: seq<Moment>, c: nat, task: Task)
    requires IsRun(sv, run) && c < |After(run).sockets| && task in After(run).sockets[c].done
    ensures task.rec.owner == c && Genuine(sv, After(run), task.rec)
  {
    hide IsRun, After, TasksOf, Parsed;
    var k := After(run).sockets[c];
    ReaderFollowsPlan(sv, run, c);
    var i :| 0 <= i < |k.done| && k.done[i] == task;
    assert TasksOf(c, ConnectionOf(sv, k), k.inputs)[i] == task;
    TasksAreGenuine(c, ConnectionOf(sv, k), k.inputs, task);
  }

  lemma {:induction false} ReplyWasDone(done: seq<Task>, r: Response)
    requires r in Replies(done)
    ensures exists task :: task in done && task.Do? && task.rec == r.rec && !task.act.Produce?
  {
    if r !in ReplyOf(done[|done| - 1]) {
      ReplyWasDone(done[..|done| - 1], r);
    }
  }

  lemma {:induction false} DeliveryWasRouted(delivered: seq<Route>, t: nat, r: Response)
    requires r in DeliveredTo(delivered, t)
    ensures r.ok && exists route :: route in delivered && route.rec == r.rec && route.target == t
  {
    if r !in DeliveryOf(delivered[|delivered| - 1], t) {
      DeliveryWasRouted(delivered[..|delivered| - 1], t, r);
    }
  }

  lemma {:induction false} RoutedCounts(routes: seq<Route>, route: Route)
    requires route in routes
    ensures DeliveryConservation.Routed(routes, Some(route.rec)) > 0
  {
    if route != routes[|routes| - 1] {
      RoutedCounts(routes[..|routes| - 1], route);
    }
  }

  lemma {:induction false} PassedWasConfirmed(sv: Server, confirmed: seq<Confirmation>, rec: Rec)
    requires DeliveryConservation.Passed(sv, confirmed, Some(rec)) > 0
    ensures exists i :: 0 <= i < |confirmed| && confirmed[i].rec == rec && PassesOn(sv, confirmed[i].dispatcher, rec.value.txType)
  {
    var n := |confirmed| - 1;
    if !(confirmed[n].rec == rec && PassesOn(sv, confirmed[n].dispatcher, rec.value.txType)) {
      PassedWasConfirmed(sv, confirmed[..n], rec);
      var i :| 0 <= i < n && confirmed[..n][i].rec == rec && PassesOn(sv, confirmed[..n][i].dispatcher, rec.value.txType);
      assert confirmed[i].rec == rec;
    }
  }

  // ---------------------------------------------------------------- events are never answered

  ghost predicate EventsAreConnectivity(k: Socket) {
    forall i :: 0 <= i < |k.inputs| && k.inputs[i].Event? ==> k.inputs[i].record.txType == CONNECTIVITY
  }

  lemma EventsStep(sv: Server, c: nat, k: Socket, l: Label)
    requires AtSocket(l) && EnabledAt(k, true, l) && EventsAreConnectivity(k)
    ensures EventsAreConnectivity(StepAt(sv, c, k, l))
  {
    hide InputTasks, PassesAfter;
  }

  lemma {:induction false} EventsHold(sv: Server, run: seq<Moment>, c: nat)
    requires IsRun(sv, run) && c < |After(run).sockets|
    ensures EventsAreConnectivity(After(run).sockets[c])
  {
    hide Next, Enabled, StepAt, EnabledAt, InputTasks;
    if run != [] {
      LastStep(sv, run);
      var before, l := run[..|run| - 1], run[|run| - 1].step;
      var s := After(before);
      SocketChanges(sv, s, l, c);
      if c < |s.sockets| {
        EventsHold(sv, before, c);
        if IsOwnStep(sv, c, s.sockets[c], After(run).sockets[c], l) {
          EventsStep(sv, c, s.sockets[c], l);
        }
      }
    }
  }

  /** The input a record stems from is a message, not the coming or going of its connection. */
  ghost predicate FromMessage(s: State, rec: Rec) {
    rec.owner < |s.sockets| && rec.number < |s.sockets[rec.owner].inputs| && s.sockets[rec.owner].inputs[rec.number].Message?
  }

  lemma ReliableIsMessage(sv: Server, run: seq<Moment>, rec: Rec, d: Dispatcher)
    requires WellConfigured(sv) && IsRun(sv, run) && Genuine(sv, After(run), rec) && PassesOn(sv, d, rec.value.txType)
    ensures FromMessage(After(run), rec)
  {
    EventsHold(sv, run, rec.owner);
    ReliableAckConfig.OneSourcePerType(sv.settings.rules, sv.settings.sources, rec.value.txType, d);
    hide IsRun, After, WellConfigured;
  }

  lemma AnsweredIsMessage(sv: Server, run: seq<Moment>, c: nat, task: Task)
    requires IsRun(sv, run) && c < |After(run).sockets| && task in After(run).sockets[c].done
    requires task.Do? && !task.act.Produce?
    ensures task.rec.owner == c && FromMessage(After(run), task.rec)
  {
    hide IsRun, After, TasksOf, Parsed;
    var k := After(run).sockets[c];
    ReaderFollowsPlan(sv, run, c);
    var i :| 0 <= i < |k.done| && k.done[i] == task;
    assert TasksOf(c, ConnectionOf(sv, k), k.inputs)[i] == task;
    TasksAreGenuine(c, ConnectionOf(sv, k), k.inputs, task);
  }

  lemma RoutedIsGenuine(sv: Server, run: seq<Moment>, route: Route)
    requires WellConfigured(sv) && IsRun(sv, run) && route in After(run).routed
    ensures Genuine(sv, After(run), route.rec) && FromMessage(After(run), route.rec)
  {
    hide IsRun, After, WellConfigured, Genuine, FromMessage, PassesOn, DeliveryConservation.Passed, DeliveryConservation.Routed, DeliveryConservation.Missed;
    var s := After(run);
    RoutedCounts(s.routed, route);
    DeliveryConservation.BalanceHolds(sv, run, Some(route.rec));
    PassedWasConfirmed(sv, s.confirmed, route.rec);
    var i :| 0 <= i < |s.confirmed| && s.confirmed[i].rec == route.rec && PassesOn(sv, s.confirmed[i].dispatcher, route.rec.value.txType);
    TracedHolds(sv, run);
    assert WasTried(s, route.rec, s.confirmed[i].dispatcher);
    DoneIsGenuine(sv, run, route.rec.owner, Do(route.rec, Produce(s.confirmed[i].dispatcher)));
    ReliableIsMessage(sv, run, route.rec, s.confirmed[i].dispatcher);
  }

  /** Everything queued for a connection answers a message to a connection with its UUID, not a
      newer one; unless it was routed there, a message to itself. */
  lemma QueuedIsGenuine(sv: Server, run: seq<Moment>, t: nat, r: Response)
    requires WellConfigured(sv) && IsRun(sv, run) && t < |After(run).sockets|
    requires r in After(run).sockets[t].queued
    ensures var s := After(run);
            && Genuine(sv, s, r.rec) && FromMessage(s, r.rec) && r.rec.owner <= t && s.sockets[r.rec.owner].uuid == s.sockets[t].uuid
            && (r.rec.owner == t || exists route :: route in s.delivered && route.rec == r.rec && route.target == t)
  {
    hide IsRun, After, WellConfigured, Replies, DeliveredTo, Genuine, FromMessage;
    var s := After(run);
    var k := s.sockets[t];
    BalanceHolds(sv, run, t);
    assert r in multiset(k.queued);
    if r in Replies(k.done) {
      ReplyWasDone(k.done, r);
      var task :| task in k.done && task.Do? && task.rec == r.rec && !task.act.Produce?;
      DoneIsGenuine(sv, run, t, task);
      AnsweredIsMessage(sv, run, t, task);
    } else {
      DeliveryWasRouted(s.delivered, t, r);
      var route :| route in s.delivered && route.rec == r.rec && route.target == t;
      DeliveryConservation.CountedHolds(sv, run);
      assert route in s.routed;
      RoutedIsGenuine(sv, run, route);
      DeliveryRouting.AcknowledgedAtHome(sv, run, route);
    }
  }

  /** A genuine record is made of the message that a step of the run received, by a serializer that knows
      the identity and the UUID of the step that made the connection, and the configuration. */
  lemma RecordsAreRead(sv: Server, run: seq<Moment>, rec: Rec)
    requires IsRun(sv, run) && Genuine(sv, After(run), rec) && FromMessage(After(run), rec)
    ensures rec.owner < |DeliverySteps.MadeBy(run)| && rec.number < |DeliverySteps.InputsOf(run, rec.owner)|
    ensures var made, input := DeliverySteps.MadeBy(run)[rec.owner], DeliverySteps.InputsOf(run, rec.owner)[rec.number];
            && input.Message? && input.frame.binary
            && rec.value == RecordFor(Context(sv.settings.rules, made.identity), sv.codec, input.frame.data, made.uuid,
                                      sv.settings.transmitDecoded, input.frame.now).record
  {
    hide IsRun, After, RecordFor, DeliverySteps.InputsOf, DeliverySteps.MadeBy;
    DeliverySteps.ConnectionsAreMade(sv, run);
    DeliverySteps.ConnectionsAreSteps(sv, run, rec.owner);
    DeliverySteps.ReadsBinary(sv, run, rec.owner);
    assert DeliverySteps.InputsOf(run, rec.owner)[rec.number] in DeliverySteps.InputsOf(run, rec.owner);
  }

  // ---------------------------------------------------------------- bytes to bytes

  /** A record with a type was parsed from a stream message. */
  lemma TypedIsStream(conn: Connection, f: Frame)
    requires conn.Parse(f).record.txType != ""
    ensures |f.data.bytes| <= MESSAGE_LIMIT && StreamMessages.FromBytes(f.data).Ok?
  {
    hide StreamMessages.FromBytes, Deserialized, Authorized;
    var r := conn.Parse(f);
    EveryMessageIsClassified(conn.context, conn.codec, f.data, conn.uuid, conn.settings.transmitDecoded, f.now);
    if StreamMessages.FromBytes(f.data).Rejected? {
      OtherTypesAreUnknown(conn.context, f.data, conn.uuid, f.now);
    }
  }

  /** The `n`th input of connection `o` is a stream message with these fields. */
  ghost predicate Asked(s: State, o: nat, n: nat, fields: TeslaMessages.Fields) {
    && o < |s.sockets| && n < |s.sockets[o].inputs| && s.sockets[o].inputs[n].Message?
    && var parsed := StreamMessages.FromBytes(s.sockets[o].inputs[n].frame.data);
       parsed.Ok? && parsed.value.fields == fields
  }

  /** In every interleaving, every acknowledgement of a typed message that a writer puts on the wire
      parses, and names the txid and the topic of a stream message which this connection, or an
      older one with its UUID, has read; and if that topic has a source of reliable
      acknowledgements, that source has confirmed the record of that message, in a step of the run. */
  lemma AcknowledgementsAreTrue(sv: Server, run: seq<Moment>, t: nat, i: nat, spare: Spare)
    requires WellConfigured(sv) && IsRun(sv, run) && t < |After(run).sockets|
    requires i < |After(run).sockets[t].wire|
    ensures var s := After(run);
            var r := s.sockets[t].wire[i];
            var o, n := r.rec.owner, r.rec.number;
            && o <= t && s.sockets[o].uuid == s.sockets[t].uuid && n < |s.sockets[o].inputs|
            && (r.ok && r.rec.value.txType != "" ==>
                  && (exists fields :: Asked(s, o, n, fields)
                        && StreamMessages.AckFromBytes(Slice(r.Bytes(), spare)).Ok?
                        && StreamMessages.AckFromBytes(Slice(r.Bytes(), spare)).value.txid == fields.txid
                        && StreamMessages.AckFromBytes(Slice(r.Bytes(), spare)).value.topic == fields.topic
                        && r.rec.value.txType == ToString(fields.topic))
                  && (r.rec.value.txType in sv.settings.sources ==>
                        && DeliverySafety.IsConfirmed(sv, s.confirmed, r.rec)
                        && exists j: nat :: DeliverySteps.VouchedAt(sv, run, j, r.rec, sv.settings.sources[r.rec.value.txType])))
  {
    hide IsRun, After, WellConfigured, DeliverySteps.VouchedAt, DeliverySafety.IsConfirmed, StreamMessages.AckFromBytes, StreamMessages.FromBytes, RecordFor, AckOf, ErrorOf;
    var s := After(run);
    var k := s.sockets[t];
    var r := k.wire[i];
    WireIsPrefix(sv, run, t);
    assert k.queued[i] == r;
    QueuedIsGenuine(sv, run, t, r);
    DeliverySafety.SafeHolds(sv, run);
    assert DeliverySafety.ResponseSafe(sv, s.confirmed, k.queued[i]);
    if r.ok && DeliverySafety.NeedsProof(sv, r.rec) {
      var step := DeliverySafety.ConfirmedIsVouched(sv, run, r.rec);
    }
    var o := s.sockets[r.rec.owner];
    if r.ok && r.rec.value.txType != "" {
      AckNamesMessage(ConnectionOf(sv, o), o.inputs[r.rec.number].frame, r.rec.value, spare);
      assert Asked(s, r.rec.owner, r.rec.number, StreamMessages.FromBytes(o.inputs[r.rec.number].frame.data).value.fields);
    }
  }

  lemma TypeKept(conn: Connection, f: Frame)
    requires |f.data.bytes| <= MESSAGE_LIMIT
    ensures conn.Parse(f) == RecordFor(conn.context, conn.codec, f.data, conn.uuid, conn.settings.transmitDecoded, f.now)
    ensures conn.Parse(f).record.txType == Deserialized(conn.context, f.data, conn.uuid, f.now).record.txType
  {
    hide Deserialized;
  }

  lemma AckNamesMessage(conn: Connection, f: Frame, record: RecordValue, spare: Spare)
    requires record == conn.Parse(f).record && record.txType != ""
    ensures |f.data.bytes| <= MESSAGE_LIMIT && StreamMessages.FromBytes(f.data).Ok?
    ensures var fields := StreamMessages.FromBytes(f.data).value.fields;
            && StreamMessages.AckFromBytes(Slice(AckOf(record), spare)).Ok?
            && StreamMessages.AckFromBytes(Slice(AckOf(record), spare)).value.txid == fields.txid
            && StreamMessages.AckFromBytes(Slice(AckOf(record), spare)).value.topic == fields.topic
            && record.txType == ToString(fields.topic)
  {
    hide *;
    TypedIsStream(conn, f);
    TypeKept(conn, f);
    ResponsesNameTheRequest(conn.context, conn.codec, f.data, conn.uuid, conn.settings.transmitDecoded, f.now, spare);
    DeserializedKeepsFields(conn.context, f.data, conn.uuid, f.now, spare);
  }

  // ---------------------------------------------------------------- connectivity events

  /** The stream message that announces a connection. */
  function EventFields(k: Socket, payload: Bytes, createdAt: FlatBuffers.U32): (f: TeslaMessages.Fields) {
    TeslaMessages.Fields(ToBytes(k.identity.senderId), ToBytes(CONNECTIVITY), ToBytes(k.uuid), payload, createdAt,
                         [], ToBytes("vehicle_device"), ToBytes(k.identity.deviceId), 0)
  }

  predicate OneByteEach(s: string) {
    forall c <- s :: c as int < 256
  }

  lemma StringOfBytes(s: string)
    requires OneByteEach(s)
    ensures ToString(ToBytes(s)) == s
  {
    forall i | 0 <= i < |s|
      ensures ToString(ToBytes(s))[i] == s[i]
    {
      assert s[i] in s;
    }
  }

  /** The record made of that message, if it is accepted, is an event as the steps require it. */
  lemma EventRecord(sv: Server, k: Socket, payload: Bytes, createdAt: FlatBuffers.U32, now: int, spare: Spare)
    requires EventFields(k, payload, createdAt).Size() <= TeslaMessages.SIZE_LIMIT && OneByteEach(k.uuid)
    ensures var conn := ConnectionOf(sv, k);
            var message := Slice(TeslaMessages.StreamToBytes(EventFields(k, payload, createdAt)), spare);
            var r := RecordFor(conn.context, sv.codec, message, k.uuid, sv.settings.transmitDecoded, now);
            r.error.None? ==> IsEvent(k, Some(r.record))
  {
    hide StreamMessages.FromBytes, Deserialized, Authorized, TeslaMessages.StreamToBytes;
    var c := ConnectionOf(sv, k).context;
    var f := EventFields(k, payload, createdAt);
    var message := Slice(TeslaMessages.StreamToBytes(f), spare);
    var r := RecordFor(c, sv.codec, message, k.uuid, sv.settings.transmitDecoded, now);
    if r.error.None? {
      StreamMessages.StreamRoundTrip(f, spare);
      DeserializedKeepsFields(c, message, k.uuid, now, spare);
      EveryMessageIsClassified(c, sv.codec, message, k.uuid, sv.settings.transmitDecoded, now);
      StringOfBytes(k.uuid);
      StringOfBytes(CONNECTIVITY);
      RecordMessage(c, sv.codec, message, k.uuid, sv.settings.transmitDecoded, now);
    }
  }
}
