/** What it costs when a producer panics: the record goes no further, and its connection ends. */
module DeliveryPanics {
  import opened GoTypes
  import opened Dispatchers
  import opened Serializer
  import opened SocketManagers
  import opened Delivery
  import opened DeliveryQueues
  import opened DeliveryEndToEnd
  import opened DeliveryExamples
  import DeliveryConservation
  import DeliveryProgress
  import DeliverySafety
  import ReliableAckConfig
  import RecordTransforms
  import RedisProducer
  import StreamMessages
  import TeslaMessages

  /** The message a record was made of. */
  function FrameOf(s: State, rec: Rec): (f: Frame)
    requires FromMessage(s, rec)
  {
    s.sockets[rec.owner].inputs[rec.number].frame
  }

  /** What was done about a record was called for by its message, and no producer panicked before. */
  lemma DoneWasBegun(sv: Server, run: seq<Moment>, task: Task)
    requires IsRun(sv, run) && FromMessage(After(run), task.rec) && task in After(run).sockets[task.rec.owner].done
    ensures var s, f := After(run), FrameOf(After(run), task.rec);
            var conn := ConnectionOf(sv, s.sockets[task.rec.owner]);
            task.Do? && task.rec.value == conn.Parse(f).record && task.act in conn.Begun(f)
  {
    hide IsRun, After, TasksOf, RecordFor, Reached, Plan;
    var k := After(run).sockets[task.rec.owner];
    ReaderFollowsPlan(sv, run, task.rec.owner);
    var i :| 0 <= i < |k.done| && k.done[i] == task;
    assert TasksOf(task.rec.owner, ConnectionOf(sv, k), k.inputs)[i] == task;
    TasksAreGenuine(task.rec.owner, ConnectionOf(sv, k), k.inputs, task);
  }

  /** A message that something was begun about was let in. */
  lemma BegunIsLetIn(conn: Connection, f: Frame, act: Act)
    requires act in conn.Begun(f)
    ensures !conn.Dropped(f)
  {
  }

  /** Everything that is ever queued for a vehicle answers a message that was taken care of: one whose
      acknowledgement comes from a data store was not lost to a panic before that store had it. */
  lemma AnsweredIsTakenCareOf(sv: Server, run: seq<Moment>, t: nat, r: Response)
    requires WellConfigured(sv) && IsRun(sv, run) && t < |After(run).sockets| && r in After(run).sockets[t].queued
    ensures var s := After(run);
            FromMessage(s, r.rec) && TakenCareOf(ConnectionOf(sv, s.sockets[r.rec.owner]), FrameOf(s, r.rec))
  {
    hide IsRun, After, WellConfigured, Genuine, FromMessage, TakenCareOf, Replies, DeliveredTo;
    var s := After(run);
    QueuedIsGenuine(sv, run, t, r);
    BalanceHolds(sv, run, t);
    assert r in multiset(s.sockets[t].queued);
    if r in Replies(s.sockets[t].done) {
      ReplyWasDone(s.sockets[t].done, r);
      var task :| task in s.sockets[t].done && task.Do? && task.rec == r.rec && !task.act.Produce?;
      DoneIsGenuine(sv, run, t, task);
      DoneWasBegun(sv, run, task);
      AnswerTakesCare(ConnectionOf(sv, s.sockets[t]), FrameOf(s, r.rec), task.act);
    } else {
      DeliveryWasRouted(s.delivered, t, r);
      var route :| route in s.delivered && route.rec == r.rec && route.target == t;
      DeliveryConservation.CountedHolds(sv, run);
      assert route in s.routed;
      DeliveredIsTakenCareOf(sv, run, t, r, route);
    }
  }

  lemma AnswerTakesCare(conn: Connection, f: Frame, act: Act)
    requires act in conn.Begun(f) && !act.Produce?
    ensures TakenCareOf(conn, f)
  {
    hide Reached, RecordFor;
  }

  lemma DeliveredIsTakenCareOf(sv: Server, run: seq<Moment>, t: nat, r: Response, route: Route)
    requires WellConfigured(sv) && IsRun(sv, run) && t < |After(run).sockets| && r in After(run).sockets[t].queued && r.ok
    requires route in After(run).routed && route.rec == r.rec
    requires FromMessage(After(run), r.rec)
    ensures var s := After(run);
            TakenCareOf(ConnectionOf(sv, s.sockets[r.rec.owner]), FrameOf(s, r.rec))
  {
    hide IsRun, After, Genuine, TakenCareOf, Panics, RecordFor, Confirms, Crashes, DeliverySafety.IsConfirmed;
    hide DeliveryConservation.Passed, DeliveryConservation.Routed, DeliveryConservation.Missed, DeliveryConservation.InFlight;
    var s := After(run);
    var conn, f := ConnectionOf(sv, s.sockets[r.rec.owner]), FrameOf(s, r.rec);
    var source := RoutedWasBegun(sv, run, route);
    BegunIsLetIn(conn, f, Produce(source));
    if Panics(conn, f) {
      PanicsExactly(conn, f);
      DeliverySafety.SafeHolds(sv, run);
      assert DeliverySafety.ResponseSafe(sv, s.confirmed, r);
      ConfirmedNeverCrashes(sv, s.confirmed, r.rec);
      SourceTakesCare(conn, f, source);
    } else {
      CalmCare(conn, f);
    }
  }

  lemma SourceTakesCare(conn: Connection, f: Frame, source: Dispatcher)
    requires var r := conn.Parse(f);
             && Produce(source) in conn.Begun(f) && !Crashes(r.record, source)
             && r.record.txType in conn.settings.sources && conn.settings.sources[r.record.txType] == source
    ensures TakenCareOf(conn, f)
  {
    hide Reached, RecordFor, Crashes;
  }

  lemma ConfirmedNeverCrashes(sv: Server, confirmed: seq<Confirmation>, rec: Rec)
    requires DeliverySafety.IsConfirmed(sv, confirmed, rec)
    ensures !Crashes(rec.value, sv.settings.sources[rec.value.txType])
  {
    hide Crashes, Confirms;
    var i :| 0 <= i < |confirmed| && DeliverySafety.ConfirmedBy(sv, confirmed[i], rec);
    if Crashes(rec.value, confirmed[i].dispatcher) {
      PanicNeverConfirms(sv, rec, confirmed[i].dispatcher, confirmed[i].attempt);
    }
  }

  /** The source of a record that was routed has been given it. */
  lemma RoutedWasBegun(sv: Server, run: seq<Moment>, route: Route) returns (source: Dispatcher)
    requires WellConfigured(sv) && IsRun(sv, run) && route in After(run).routed && FromMessage(After(run), route.rec)
    ensures route.rec.value.txType in sv.settings.sources && source == sv.settings.sources[route.rec.value.txType]
    ensures var s, f := After(run), FrameOf(After(run), route.rec);
            var conn := ConnectionOf(sv, s.sockets[route.rec.owner]);
            route.rec.value == conn.Parse(f).record && Produce(source) in conn.Begun(f)
  {
    hide IsRun, After, FromMessage, RecordFor, Reached, PassesOn;
    hide DeliveryConservation.Passed, DeliveryConservation.Routed, DeliveryConservation.Missed, DeliveryConservation.InFlight;
    var s := After(run);
    RoutedCounts(s.routed, route);
    DeliveryConservation.BalanceHolds(sv, run, Some(route.rec));
    PassedWasConfirmed(sv, s.confirmed, route.rec);
    var i :| 0 <= i < |s.confirmed| && s.confirmed[i].rec == route.rec && PassesOn(sv, s.confirmed[i].dispatcher, route.rec.value.txType);
    source := s.confirmed[i].dispatcher;
    TracedHolds(sv, run);
    assert WasTried(s, route.rec, source);
    OnlySourcePasses(sv, source, route.rec.value.txType);
    DoneWasBegun(sv, run, Do(route.rec, Produce(source)));
  }

  lemma OnlySourcePasses(sv: Server, d: Dispatcher, txType: string)
    requires WellConfigured(sv) && PassesOn(sv, d, txType)
    ensures txType in sv.settings.sources && d == sv.settings.sources[txType]
  {
    ReliableAckConfig.OneSourcePerType(sv.settings.rules, sv.settings.sources, txType, d);
  }

  /** A message at which a producer panics before the source of its type, if that has one, has been
      given its record, is never answered: in no run, whatever else goes on, is anything queued for
      any vehicle that answers it. */
  lemma PanicIsNeverAnswered(sv: Server, run: seq<Moment>, rec: Rec, t: nat, r: Response)
    requires WellConfigured(sv) && IsRun(sv, run) && FromMessage(After(run), rec)
    requires var conn, f := ConnectionOf(sv, After(run).sockets[rec.owner]), FrameOf(After(run), rec);
             var txType := conn.Parse(f).record.txType;
             && Panics(conn, f)
             && (txType in sv.settings.sources ==>
                   forall i :: 0 <= i < |conn.Begun(f)| - 1 && i < |Rule(sv.settings, txType)| ==>
                                 Rule(sv.settings, txType)[i] != sv.settings.sources[txType])
    requires t < |After(run).sockets| && r in After(run).sockets[t].queued
    ensures r.rec != rec
  {
    hide IsRun, After, TakenCareOf, RecordFor, Reached, Panics;
    if r.rec == rec {
      var conn, f := ConnectionOf(sv, After(run).sockets[rec.owner]), FrameOf(After(run), rec);
      OnlyAcceptedPanic(conn, f);
      AnsweredIsTakenCareOf(sv, run, t, r);
      NothingIsForgotten(conn, f);
    }
  }

  // ---------------------------------------------------------------- a signal without a value

  /** A message whose record goes to MQTT, which panics at it, and would go to Kafka after that. */
  predicate IsFatal(sv: Server, uuid: string, identity: RequestIdentity, frame: Frame) {
    var conn := ConnectionOf(sv, Reading(uuid, identity));
    && frame.binary && conn.Parse(frame).error.None? && conn.Acts(frame) == [Produce(Mqtt), Produce(Kafka)]
    && Crashes(conn.Parse(frame).record, Mqtt)
  }

  /** Whatever the broker would have answered. */
  lemma Unwinds(sv: Server, s: State, rec: Rec, a: Attempt)
    requires |s.sockets| == 1 && s.sockets[0].phase.Open? && a.OnMqtt?
    requires s.sockets[0].todo != [] && s.sockets[0].todo[0] == Do(rec, Produce(Mqtt)) && Crashes(rec.value, Mqtt)
    ensures Enabled(s, Dispatch(0, a)) && Next(sv, s, Dispatch(0, a)) == With(s, 0, Unwound(s.sockets[0]))
  {
    hide Confirms, Crashes;
    PanicPassesNothing(sv, s.sockets[0].todo[0], a);
  }

  /** A record of an accepted message for Kafka; but Kafka does not have it, its connection is gone,
      and nothing was ever queued for its vehicle. */
  ghost predicate IsLost(sv: Server, s: State, rec: Rec) {
    && FromMessage(s, rec)
    && var k, f := s.sockets[rec.owner], FrameOf(s, rec);
       && ConnectionOf(sv, k).Parse(f) == Result(rec.value, None) && Produce(Kafka) in ConnectionOf(sv, k).Acts(f)
       && k.phase.Gone? && k.todo == [] && k.queued == [] && Do(rec, Produce(Kafka)) !in k.done
       && s.kafkaPending == multiset{} && s.confirmed == []
  }

  /** The connection after the panic, and after it has left. */
  function Fallen(sv: Server, uuid: string, identity: RequestIdentity, frame: Frame, phase: Phase): (k: Delivery.Socket) {
    Reading(uuid, identity).(phase := phase, inputs := [Message(frame)],
                             done := [Do(RecordOf(sv, 0, uuid, identity, frame), Produce(Mqtt))])
  }

  lemma FatalIsLost(sv: Server, s: State, uuid: string, identity: RequestIdentity, frame: Frame)
    requires IsFatal(sv, uuid, identity, frame)
    requires |s.sockets| == 1 && s.sockets[0] == Fallen(sv, uuid, identity, frame, Gone)
    requires s.kafkaPending == multiset{} && s.confirmed == []
    ensures IsLost(sv, s, RecordOf(sv, 0, uuid, identity, frame))
  {
    hide RecordFor, Plan, Crashes;
    var k := Fallen(sv, uuid, identity, frame, Gone);
    assert k.done[0].act == Produce(Mqtt);
    assert k.inputs[0] == Message(frame);
  }

  lemma FatalTasks(sv: Server, uuid: string, identity: RequestIdentity, frame: Frame)
    requires IsFatal(sv, uuid, identity, frame)
    ensures var rec := RecordOf(sv, 0, uuid, identity, frame);
            && frame.binary && FirstTasks(sv, 0, uuid, identity, frame) == [Do(rec, Produce(Mqtt)), Do(rec, Produce(Kafka))]
            && Crashes(rec.value, Mqtt)
  {
    hide RecordFor, Plan, Crashes;
  }

  lemma Falling(sv: Server, uuid: string, identity: RequestIdentity, frame: Frame) returns (run: seq<Moment>)
    requires IsFatal(sv, uuid, identity, frame)
    ensures IsRun(sv, run)
    ensures var s := After(run);
            && |s.sockets| == 1 && s.sockets[0] == Fallen(sv, uuid, identity, frame, Closed)
            && s.kafkaPending == multiset{} && s.confirmed == []
  {
    var rec, a := RecordOf(sv, 0, uuid, identity, frame), DeliveryProgress.SomeAttempt(Mqtt);
    assert a.OnMqtt?;
    hide IsRun, After, Enabled, Next, RecordOf, IsFatal, Crashes, FirstTasks, DeliveryProgress.SomeAttempt;
    FatalTasks(sv, uuid, identity, frame);
    run := ReadingFirst(sv, uuid, identity, frame);
    Unwinds(sv, After(run), rec, a);
    Extend(sv, run, Dispatch(0, a));
    run := Longer(sv, run, Dispatch(0, a));
    assert [] + [Do(rec, Produce(Mqtt))] == [Do(rec, Produce(Mqtt))];
  }

  /** The connection ends without Kafka, or the vehicle, ever hearing of the record. */
  lemma FatalRun(sv: Server, uuid: string, identity: RequestIdentity, frame: Frame) returns (run: seq<Moment>)
    requires IsFatal(sv, uuid, identity, frame)
    ensures IsRun(sv, run) && IsLost(sv, After(run), RecordOf(sv, 0, uuid, identity, frame))
  {
    hide IsRun, After, RecordOf, Crashes, IsFatal, IsLost;
    run := Falling(sv, uuid, identity, frame);
    run := Leaving(sv, run, 0);
    FatalIsLost(sv, After(run), uuid, identity, frame);
  }

  /** Every payload holds one signal, which has no value. */
  const VALUELESS := Codec(_ => Some([RecordTransforms.Datum(8, None)]), _ => None, _ => None, _ => false,
                           (_, _) => Some([]), (_, _) => None, _ => None, _ => None)

  /** Signals go to MQTT, and to Kafka, which has to confirm them. */
  function FragileServer(): (sv: Server)
    ensures WellConfigured(sv)
  {
    var rules, sources := map["V" := [Mqtt, Kafka]], map["V" := Kafka];
    assert rules["V"][1] == Kafka;
    Server(Settings(rules, sources, false, false), ReliableAckConfig.Inverse(sources), VALUELESS, RedisProducer.Config("", false, "", {}), 0)
  }

  lemma SmallIsFatal(sv: Server, uuid: string)
    requires sv == FragileServer()
    ensures IsFatal(sv, uuid, CLIENT, SmallFrame("V"))
    ensures ConnectionOf(sv, Reading(uuid, CLIENT)).Parse(SmallFrame("V")).record.txType == "V"
    ensures "V" in sv.settings.sources && sv.settings.sources["V"] == Kafka
  {
    hide RecordFor, TeslaMessages.StreamToBytes, Plan, Crashes, StreamMessages.FromBytes;
    var conn, f := ConnectionOf(sv, Reading(uuid, CLIENT)), SmallFrame("V");
    assert ToString(ToBytes("V")) == "V";
    SmallIsAccepted(sv, uuid, "V");
    AcceptedActs(conn, f);
    assert Dispatches(sv.settings.rules, "V") == [Produce(Mqtt), Produce(Kafka)];
    RecordMessage(conn.context, conn.codec, f.data, conn.uuid, conn.settings.transmitDecoded, f.now);
    MessageCrashes(conn.codec, conn.Parse(f).record, PAYLOAD);
    assert RecordTransforms.LacksValue([RecordTransforms.Datum(8, None)]) by {
      assert [RecordTransforms.Datum(8, None)][0].value.None?;
    }
  }

  /** There is a well configured server with a run in which a message is accepted whose type Kafka has
      to confirm, and its connection is gone and Kafka has never been given the record. */
  lemma PanicHappens() returns (sv: Server, run: seq<Moment>, rec: Rec)
    ensures WellConfigured(sv) && IsRun(sv, run) && IsLost(sv, After(run), rec)
    ensures rec.value.txType in sv.settings.sources && sv.settings.sources[rec.value.txType] == Kafka
  {
    hide TeslaMessages.StreamToBytes;
    sv := FragileServer();
    rec := RecordOf(sv, 0, "u", CLIENT, SmallFrame("V"));
    SmallIsFatal(sv, "u");
    hide RecordFor, IsRun, IsLost, IsFatal, WellConfigured, SmallFrame, FragileServer;
    run := FatalRun(sv, "u", CLIENT, SmallFrame("V"));
  }
}
