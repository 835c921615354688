/** A producer that is listed several times for a type is given each record as often, and the vehicle
    is answered as often: the bound on the acknowledgements of a record cannot be lowered. */
module DeliveryRepeats {
  import opened GoTypes
  import opened Dispatchers
  import opened Serializer
  import opened SocketManagers
  import opened Delivery
  import opened DeliveryExamples
  import DeliveryConservation
  import DeliveryOnce
  import ReliableAckConfig
  import SocketRegistry
  import TeslaMessages

  /** One connection, which waits for messages, and everything else waits, too. */
  predicate Quiet(s: State, uuid: string) {
    && s.calls == [SocketRegistry.Register(SocketRegistry.Socket(0, uuid))] && s.kafkaLoop.None? && s.ackLoop.Waiting?
    && |s.sockets| == 1 && s.sockets[0].uuid == uuid && s.sockets[0].writer.Running? && s.sockets[0].queue == []
  }

  function Repeats(rec: Rec, n: nat): (tasks: seq<Task>) {
    seq(n, _ => Do(rec, Produce(Kafka)))
  }

  /** How often Kafka has the record and has confirmed it, and what the vehicle has been sent. */
  ghost predicate Progressed(s: State, rec: Rec, pending: nat, acked: nat) {
    && s.kafkaPending[rec] == pending && DeliveryConservation.Routed(s.routed, Some(rec)) == acked
    && s.sockets != [] && s.sockets[0].wire == seq(acked, _ => Response(rec, true))
  }

  lemma ReadingOne(sv: Server, uuid: string, identity: RequestIdentity, frame: Frame, n: nat) returns (run: seq<Moment>)
    requires frame.binary
    requires ConnectionOf(sv, Reading(uuid, identity)).Acts(frame) == seq(n, _ => Produce(Kafka))
    ensures IsRun(sv, run)
    ensures var s, rec := After(run), RecordOf(sv, 0, uuid, identity, frame);
            Quiet(s, uuid) && s.sockets[0].todo == Repeats(rec, n) && Progressed(s, rec, 0, 0)
  {
    hide RecordFor, Plan;
    assert FirstTasks(sv, 0, uuid, identity, frame) == Repeats(RecordOf(sv, 0, uuid, identity, frame), n);
    hide IsRun, After, FirstTasks, Repeats, RecordOf;
    run := ReadingFirst(sv, uuid, identity, frame);
  }

  /** Kafka takes the record as often as there is a task to hand it over. */
  lemma {:induction false} HandingOverAll(sv: Server, run: seq<Moment>, uuid: string, rec: Rec, n: nat, pending: nat)
    returns (run': seq<Moment>)
    requires IsRun(sv, run) && Quiet(After(run), uuid) && After(run).sockets[0].todo == Repeats(rec, n)
    requires Progressed(After(run), rec, pending, 0)
    ensures IsRun(sv, run') && Quiet(After(run'), uuid) && Progressed(After(run'), rec, pending + n, 0)
    decreases n
  {
    hide IsRun, After, Enabled, Next, DeliveryConservation.Routed;
    if n == 0 {
      run' := run;
    } else {
      HandsOver(sv, After(run), 0, rec);
      Extend(sv, run, Dispatch(0, Plain(true)));
      run' := Longer(sv, run, Dispatch(0, Plain(true)));
      assert Repeats(rec, n)[1..] == Repeats(rec, n - 1);
      run' := HandingOverAll(sv, run', uuid, rec, n - 1, pending + 1);
    }
  }

  /** Kafka confirms the record once, and the acknowledgement goes to the wire. */
  lemma Acknowledging(sv: Server, run: seq<Moment>, uuid: string, rec: Rec, pending: nat, acked: nat) returns (run': seq<Moment>)
    requires IsRun(sv, run) && Quiet(After(run), uuid) && Progressed(After(run), rec, pending + 1, acked)
    requires PassesOn(sv, Kafka, rec.value.txType) && rec.value.socketId == uuid
    ensures IsRun(sv, run') && Quiet(After(run'), uuid) && Progressed(After(run'), rec, pending, acked + 1)
  {
    hide IsRun, After, PassesOn, SocketRegistry.After, DeliveryConservation.Routed;
    FindsFirst(uuid);
    var routed := After(run).routed;
    run' := Confirming(sv, run, rec);
    run' := LookingUp(sv, run', rec);
    DeliveryConservation.RoutedGrows(routed, After(run').ackLoop.route, Some(rec));
    run' := Delivered(sv, run', uuid, rec);
  }

  lemma Delivered(sv: Server, run: seq<Moment>, uuid: string, rec: Rec) returns (run': seq<Moment>)
    requires IsRun(sv, run)
    requires var s := After(run);
             && s.ackLoop.Sending? && s.ackLoop.route.rec == rec && s.ackLoop.route.target == 0
             && Quiet(s.(ackLoop := Waiting), uuid)
    ensures IsRun(sv, run')
    ensures var s, s' := After(run), After(run');
            && Quiet(s', uuid) && s'.kafkaPending == s.kafkaPending && s'.routed == s.routed
            && s'.sockets[0].wire == s.sockets[0].wire + [Response(rec, true)]
  {
    hide IsRun, After, SocketRegistry.After;
    Extend(sv, run, Deliver);
    run' := Longer(sv, run, Deliver);
    Extend(sv, run', Write(0, true));
    run' := Longer(sv, run', Write(0, true));
  }

  lemma {:induction false} AcknowledgingAll(sv: Server, run: seq<Moment>, uuid: string, rec: Rec, n: nat, acked: nat)
    returns (run': seq<Moment>)
    requires IsRun(sv, run) && Quiet(After(run), uuid) && Progressed(After(run), rec, n, acked)
    requires PassesOn(sv, Kafka, rec.value.txType) && rec.value.socketId == uuid
    ensures IsRun(sv, run') && Quiet(After(run'), uuid) && Progressed(After(run'), rec, 0, acked + n)
    decreases n
  {
    hide IsRun, After, PassesOn, Quiet, Progressed;
    if n == 0 {
      run' := run;
    } else {
      run' := Acknowledging(sv, run, uuid, rec, n - 1, acked);
      run' := AcknowledgingAll(sv, run', uuid, rec, n - 1, acked + 1);
    }
  }

  /** The vehicle sends one message, which calls for `n` dispatches, and Kafka confirms each. */
  lemma RepeatedRun(sv: Server, uuid: string, identity: RequestIdentity, frame: Frame, n: nat) returns (run: seq<Moment>)
    requires frame.binary
    requires ConnectionOf(sv, Reading(uuid, identity)).Acts(frame) == seq(n, _ => Produce(Kafka))
    requires var rec := RecordOf(sv, 0, uuid, identity, frame);
             PassesOn(sv, Kafka, rec.value.txType) && rec.value.socketId == uuid
    ensures IsRun(sv, run) && Quiet(After(run), uuid)
    ensures Progressed(After(run), RecordOf(sv, 0, uuid, identity, frame), 0, n)
  {
    var rec := RecordOf(sv, 0, uuid, identity, frame);
    run := ReadingOne(sv, uuid, identity, frame, n);
    hide *;
    run := HandingOverAll(sv, run, uuid, rec, n, 0);
    run := AcknowledgingAll(sv, run, uuid, rec, n, 0);
  }

  /** A server on which the source of a type is listed `n` times for it. */
  function RepeatingServer(n: nat): (sv: Server)
    requires n > 0
    ensures WellConfigured(sv)
  {
    var rule := seq(n, _ => Kafka);
    assert rule[0] == Kafka;
    ServerFor(rule)
  }

  lemma {:induction false} ListedTimes(n: nat, d: Dispatcher)
    ensures multiset(seq(n, _ => d))[d] == n
  {
    if n > 0 {
      ListedTimes(n - 1, d);
      assert seq(n, _ => d) == [d] + seq(n - 1, _ => d);
    }
  }

  lemma RepeatedRule(sv: Server, n: nat)
    requires n > 0 && sv == RepeatingServer(n)
    ensures Dispatches(sv.settings.rules, TOPIC) == seq(n, _ => Produce(Kafka))
    ensures DeliveryOnce.Listed(sv, TOPIC, Kafka) == n
    ensures TOPIC in sv.settings.sources && sv.settings.sources[TOPIC] == Kafka && PassesOn(sv, Kafka, TOPIC)
  {
    ListedTimes(n, Kafka);
    ReliableAckConfig.OneSourcePerType(sv.settings.rules, sv.settings.sources, TOPIC, Kafka);
  }

  /** The message calls for as many dispatches. */
  lemma SmallRepeats(sv: Server, uuid: string, n: nat)
    requires n > 0 && sv == RepeatingServer(n)
    ensures var conn := ConnectionOf(sv, Reading(uuid, CLIENT));
            && conn.Acts(SmallFrame(TOPIC)) == seq(n, _ => Produce(Kafka))
            && conn.Parse(SmallFrame(TOPIC)).record.txType == TOPIC && conn.Parse(SmallFrame(TOPIC)).record.socketId == uuid
  {
    hide RecordFor, TeslaMessages.StreamToBytes, Plan, Dispatches, PassesOn, DeliveryOnce.Listed;
    assert ToString(ToBytes(TOPIC)) == TOPIC;
    SmallIsAccepted(sv, uuid, TOPIC);
    RepeatedRule(sv, n);
    AcceptedActs(ConnectionOf(sv, Reading(uuid, CLIENT)), SmallFrame(TOPIC));
  }

  /** For every `n` there is a well configured server that lists the source of a type `n` times for it,
      with a run in which the vehicle reads `n` acknowledgements of one record. */
  lemma AcknowledgedRepeatedly(n: nat) returns (sv: Server, run: seq<Moment>, rec: Rec)
    requires n > 0
    ensures WellConfigured(sv) && IsRun(sv, run)
    ensures rec.value.txType in sv.settings.sources && DeliveryOnce.Listed(sv, rec.value.txType, sv.settings.sources[rec.value.txType]) == n
    ensures DeliveryConservation.Routed(After(run).routed, Some(rec)) == n
    ensures |After(run).sockets| == 1 && After(run).sockets[0].wire == seq(n, _ => Response(rec, true))
  {
    hide TeslaMessages.StreamToBytes;
    sv := RepeatingServer(n);
    var uuid := "u";
    rec := RecordOf(sv, 0, uuid, CLIENT, SmallFrame(TOPIC));
    SmallRepeats(sv, uuid, n);
    RepeatedRule(sv, n);
    hide RecordFor, Plan, RepeatingServer, IsRun, After, WellConfigured, PassesOn, SmallFrame,
      DeliveryOnce.Listed, DeliveryConservation.Routed;
    run := RepeatedRun(sv, uuid, CLIENT, SmallFrame(TOPIC), n);
  }
}
