/** Runs that show where the promises end: a reused UUID, and a vehicle that stops reading. */
module DeliveryExamples {
  import opened GoTypes
  import opened Dispatchers
  import opened Serializer
  import opened SocketManagers
  import opened Delivery
  import opened DeliveryProgress
  import RedisProducer
  import ReliableAckConfig
  import StreamMessages
  import TeslaMessages
  import SocketRegistry

  // ---------------------------------------------------------------- a connection that reads one message

  /** A connection that has begun to read. */
  function Reading(uuid: string, identity: RequestIdentity): (k: Delivery.Socket) {
    NewSocket(uuid, identity).(phase := Open, writer := Running)
  }

  /** A message whose record goes to Kafka alone, which has to confirm it. */
  predicate ForKafka(sv: Server, uuid: string, identity: RequestIdentity, frame: Frame) {
    var conn := ConnectionOf(sv, Reading(uuid, identity));
    && frame.binary && conn.Acts(frame) == [Produce(Kafka)]
    && conn.Parse(frame).record.socketId == uuid
    && PassesOn(sv, Kafka, conn.Parse(frame).record.txType)
  }

  /** An accepted message of a type with a source calls for what is listed for the type, and no more. */
  lemma AcceptedActs(conn: Connection, frame: Frame)
    requires frame.admitted && conn.Parse(frame).error.None? && conn.Parse(frame).record.txType in conn.settings.sources
    ensures conn.Acts(frame) == Dispatches(conn.settings.rules, conn.Parse(frame).record.txType)
    ensures conn.Parse(frame).record.socketId == conn.uuid
  {
    hide RecordFor, Dispatches;
    var r := conn.Parse(frame);
    assert r == RecordFor(conn.context, conn.codec, frame.data, conn.uuid, conn.settings.transmitDecoded, frame.now);
    EveryMessageIsClassified(conn.context, conn.codec, frame.data, conn.uuid, conn.settings.transmitDecoded, frame.now);
    assert [] + Dispatches(conn.settings.rules, r.record.txType) + [] == Dispatches(conn.settings.rules, r.record.txType);
  }

  /** An accepted message of a type that Kafka alone receives, and has to confirm, is such a message. */
  lemma AcceptedIsForKafka(sv: Server, uuid: string, identity: RequestIdentity, frame: Frame)
    requires WellConfigured(sv) && frame.binary && frame.admitted
    requires var r := ConnectionOf(sv, Reading(uuid, identity)).Parse(frame);
             && r.error.None? && r.record.txType in sv.settings.sources && sv.settings.sources[r.record.txType] == Kafka
             && sv.settings.rules[r.record.txType] == [Kafka]
    ensures ForKafka(sv, uuid, identity, frame)
  {
    hide RecordFor;
    var conn := ConnectionOf(sv, Reading(uuid, identity));
    AcceptedActs(conn, frame);
    ReliableAckConfig.OneSourcePerType(sv.settings.rules, sv.settings.sources, conn.Parse(frame).record.txType, Kafka);
    assert Dispatches(sv.settings.rules, conn.Parse(frame).record.txType) == [Produce(Kafka)];
  }

  function RecordOf(sv: Server, c: nat, uuid: string, identity: RequestIdentity, frame: Frame): (rec: Rec) {
    Rec(c, 0, ConnectionOf(sv, Reading(uuid, identity)).Parse(frame).record)
  }

  /** Connection `c` has handed the record of its first message to Kafka. */
  function Sent(sv: Server, c: nat, uuid: string, identity: RequestIdentity, frame: Frame): (k: Delivery.Socket) {
    Reading(uuid, identity).(inputs := [Message(frame)], done := [Do(RecordOf(sv, c, uuid, identity, frame), Produce(Kafka))])
  }

  /** The state with a connection replaced. */
  function With(s: State, c: nat, k: Delivery.Socket): (r: State)
    requires c < |s.sockets|
    ensures |r.sockets| == |s.sockets| && r.sockets[c] == k
  {
    s.(sockets := s.sockets[c := k])
  }

  lemma WithTwice(s: State, c: nat, a: Delivery.Socket, b: Delivery.Socket)
    requires c < |s.sockets|
    ensures With(With(s, c, a), c, b) == With(s, c, b) && With(s, c, a).kafkaPending == s.kafkaPending
  {
    assert s.sockets[c := a][c := b] == s.sockets[c := b];
  }

  lemma Starts(sv: Server, s: State, c: nat, uuid: string, identity: RequestIdentity)
    requires c < |s.sockets| && s.sockets[c] == NewSocket(uuid, identity)
    ensures Enabled(s, Start(c)) && Next(sv, s, Start(c)) == With(s, c, Reading(uuid, identity))
  {
  }

  /** What a connection has to do after its first message. */
  function FirstTasks(sv: Server, c: nat, uuid: string, identity: RequestIdentity, frame: Frame): (tasks: seq<Task>) {
    Tasks(RecordOf(sv, c, uuid, identity, frame), ConnectionOf(sv, Reading(uuid, identity)).Acts(frame))
  }

  lemma Receives(sv: Server, s: State, c: nat, uuid: string, identity: RequestIdentity, frame: Frame)
    requires c < |s.sockets| && s.sockets[c] == Reading(uuid, identity) && frame.binary
    ensures Enabled(s, Receive(c, frame))
    ensures Next(sv, s, Receive(c, frame)) ==
            With(s, c, Reading(uuid, identity).(inputs := [Message(frame)], todo := FirstTasks(sv, c, uuid, identity, frame)))
  {
    var tasks := FirstTasks(sv, c, uuid, identity, frame);
    FirstInputTasks(sv, c, uuid, identity, frame);
    hide InputTasks, FirstTasks;
    assert [] + tasks == tasks && [] + [Message(frame)] == [Message(frame)];
  }

  lemma FirstInputTasks(sv: Server, c: nat, uuid: string, identity: RequestIdentity, frame: Frame)
    ensures InputTasks(c, ConnectionOf(sv, Reading(uuid, identity)), 0, Message(frame)) == FirstTasks(sv, c, uuid, identity, frame)
  {
    hide RecordFor, Plan;
  }

  /** Kafka takes the record at the head of what a connection has to do. */
  lemma HandsOver(sv: Server, s: State, c: nat, rec: Rec)
    requires c < |s.sockets| && s.sockets[c].todo != [] && s.sockets[c].todo[0] == Do(rec, Produce(Kafka))
    ensures Enabled(s, Dispatch(c, Plain(true)))
    ensures var k := s.sockets[c];
            Next(sv, s, Dispatch(c, Plain(true))) ==
            With(s, c, k.(todo := k.todo[1..], done := k.done + [k.todo[0]])).(kafkaPending := s.kafkaPending + multiset{rec})
  {
    hide Confirms;
    var k := s.sockets[c];
    assert [] + k.todo[1..] == k.todo[1..];
  }

  lemma ForKafkaTasks(sv: Server, c: nat, uuid: string, identity: RequestIdentity, frame: Frame)
    requires ForKafka(sv, uuid, identity, frame)
    ensures frame.binary && FirstTasks(sv, c, uuid, identity, frame) == [Do(RecordOf(sv, c, uuid, identity, frame), Produce(Kafka))]
  {
    hide RecordFor, Plan;
  }

  lemma HandsOverFirst(sv: Server, s: State, c: nat, uuid: string, identity: RequestIdentity, frame: Frame)
    requires c < |s.sockets|
    requires var task := Do(RecordOf(sv, c, uuid, identity, frame), Produce(Kafka));
             s.sockets[c] == Reading(uuid, identity).(inputs := [Message(frame)], todo := [task])
    ensures Enabled(s, Dispatch(c, Plain(true)))
    ensures Next(sv, s, Dispatch(c, Plain(true))) ==
            With(s, c, Sent(sv, c, uuid, identity, frame)).(
            kafkaPending := s.kafkaPending + multiset{RecordOf(sv, c, uuid, identity, frame)})
  {
    hide RecordOf, Enabled, Next;
    var task := Do(RecordOf(sv, c, uuid, identity, frame), Produce(Kafka));
    assert [task][1..] == [] && [] + [task] == [task];
    HandsOver(sv, s, c, task.rec);
  }

  /** A connection that has not started yet reads its first message. */
  lemma ReadingAt(sv: Server, run: seq<Moment>, c: nat, uuid: string, identity: RequestIdentity, frame: Frame)
    returns (run': seq<Moment>)
    requires IsRun(sv, run) && c < |After(run).sockets| && After(run).sockets[c] == NewSocket(uuid, identity) && frame.binary
    ensures IsRun(sv, run')
    ensures After(run') == With(After(run), c, Reading(uuid, identity).(inputs := [Message(frame)],
                                                                        todo := FirstTasks(sv, c, uuid, identity, frame)))
  {
    hide IsRun, After, Enabled, Next, FirstTasks;
    Starts(sv, After(run), c, uuid, identity);
    Extend(sv, run, Start(c));
    run' := Longer(sv, run, Start(c));
    Receives(sv, After(run'), c, uuid, identity, frame);
    Extend(sv, run', Receive(c, frame));
    run' := Longer(sv, run', Receive(c, frame));
  }

  /** And hands its record to Kafka. */
  lemma HandingOver(sv: Server, run: seq<Moment>, c: nat, uuid: string, identity: RequestIdentity, frame: Frame)
    returns (run': seq<Moment>)
    requires IsRun(sv, run) && c < |After(run).sockets| && After(run).sockets[c] == NewSocket(uuid, identity)
    requires ForKafka(sv, uuid, identity, frame)
    ensures IsRun(sv, run')
    ensures var s := After(run);
            After(run') == With(s, c, Sent(sv, c, uuid, identity, frame)).(
            kafkaPending := s.kafkaPending + multiset{RecordOf(sv, c, uuid, identity, frame)})
  {
    ForKafkaTasks(sv, c, uuid, identity, frame);
    hide ForKafka, RecordOf, Enabled, Next, IsRun, After, FirstTasks;
    run' := ReadingAt(sv, run, c, uuid, identity, frame);
    HandsOverFirst(sv, After(run'), c, uuid, identity, frame);
    WithTwice(After(run), c, After(run').sockets[c], Sent(sv, c, uuid, identity, frame));
    hide Sent, Reading, With;
    Extend(sv, run', Dispatch(c, Plain(true)));
    run' := Longer(sv, run', Dispatch(c, Plain(true)));
  }

  lemma NoRun(sv: Server)
    ensures IsRun(sv, []) && After([]) == INITIAL
  {
  }

  lemma Connects(sv: Server, s: State, uuid: string, identity: RequestIdentity)
    ensures Enabled(s, Connect(uuid, identity, None))
    ensures Next(sv, s, Connect(uuid, identity, None)) ==
            s.(sockets := s.sockets + [NewSocket(uuid, identity)],
            calls := s.calls + [SocketRegistry.Register(SocketRegistry.Socket(|s.sockets|, uuid))])
  {
  }

  lemma Connecting(sv: Server, run: seq<Moment>, uuid: string, identity: RequestIdentity) returns (run': seq<Moment>)
    requires IsRun(sv, run)
    ensures IsRun(sv, run')
    ensures var s := After(run);
            After(run') == s.(sockets := s.sockets + [NewSocket(uuid, identity)],
            calls := s.calls + [SocketRegistry.Register(SocketRegistry.Socket(|s.sockets|, uuid))])
  {
    hide Enabled, Next, IsRun, After;
    Connects(sv, After(run), uuid, identity);
    Extend(sv, run, Connect(uuid, identity, None));
    run' := Longer(sv, run, Connect(uuid, identity, None));
  }

  lemma Ends(sv: Server, s: State, c: nat)
    requires c < |s.sockets| && s.sockets[c].phase.Open? && s.sockets[c].todo == []
    ensures Enabled(s, EndReading(c)) && Next(sv, s, EndReading(c)) == With(s, c, s.sockets[c].(phase := Closed))
  {
  }

  lemma Leaves(sv: Server, s: State, c: nat)
    requires c < |s.sockets| && s.sockets[c].phase.Closed? && s.sockets[c].todo == []
    ensures Enabled(s, Leave(c, None))
    ensures Next(sv, s, Leave(c, None)) ==
            With(s, c, s.sockets[c].(phase := Gone)).(calls := s.calls + [SocketRegistry.Deregister(Handle(c, s.sockets[c]))])
  {
  }

  /** A connection that has nothing left to do stops reading. */
  lemma Ending(sv: Server, run: seq<Moment>, c: nat) returns (run': seq<Moment>)
    requires IsRun(sv, run) && c < |After(run).sockets|
    requires After(run).sockets[c].phase.Open? && After(run).sockets[c].todo == []
    ensures IsRun(sv, run') && After(run') == With(After(run), c, After(run).sockets[c].(phase := Closed))
  {
    hide Enabled, Next, IsRun, After;
    Ends(sv, After(run), c);
    Extend(sv, run, EndReading(c));
    run' := Longer(sv, run, EndReading(c));
  }

  /** And is deregistered. */
  lemma Leaving(sv: Server, run: seq<Moment>, c: nat) returns (run': seq<Moment>)
    requires IsRun(sv, run) && c < |After(run).sockets|
    requires After(run).sockets[c].phase.Closed? && After(run).sockets[c].todo == []
    ensures IsRun(sv, run')
    ensures var s := After(run);
            After(run') == With(s, c, s.sockets[c].(phase := Gone)).(
            calls := s.calls + [SocketRegistry.Deregister(Handle(c, s.sockets[c]))])
  {
    hide Enabled, Next, IsRun, After;
    Leaves(sv, After(run), c);
    Extend(sv, run, Leave(c, None));
    run' := Longer(sv, run, Leave(c, None));
  }

  /** The first connection reads its first message. */
  lemma ReadingFirst(sv: Server, uuid: string, identity: RequestIdentity, frame: Frame) returns (run: seq<Moment>)
    requires frame.binary
    ensures IsRun(sv, run)
    ensures After(run) == INITIAL.(
            sockets := [Reading(uuid, identity).(inputs := [Message(frame)], todo := FirstTasks(sv, 0, uuid, identity, frame))],
            calls := [SocketRegistry.Register(SocketRegistry.Socket(0, uuid))])
  {
    NoRun(sv);
    run := Connecting(sv, [], uuid, identity);
    hide IsRun, After, FirstTasks;
    run := ReadingAt(sv, run, 0, uuid, identity, frame);
  }

  /** Kafka reports, and the acknowledgement loop takes the record. */
  lemma Confirming(sv: Server, run: seq<Moment>, rec: Rec) returns (run': seq<Moment>)
    requires IsRun(sv, run)
    requires var s := After(run);
             rec in s.kafkaPending && s.kafkaLoop.None? && s.ackLoop.Waiting? && PassesOn(sv, Kafka, rec.value.txType)
    ensures IsRun(sv, run')
    ensures var s, s' := After(run), After(run');
            && s'.sockets == s.sockets && s'.calls == s.calls && s'.ackLoop == Holding(rec) && s'.kafkaLoop.None?
            && s'.routed == s.routed && s'.missed == s.missed && s'.kafkaPending == s.kafkaPending - multiset{rec}
  {
    hide SocketRegistry.After, IsRun, After;
    Extend(sv, run, KafkaReport(rec, true));
    run' := Longer(sv, run, KafkaReport(rec, true));
    Extend(sv, run', KafkaPush);
    run' := Longer(sv, run', KafkaPush);
  }

  /** The record is looked up. */
  lemma LookingUp(sv: Server, run: seq<Moment>, rec: Rec) returns (run': seq<Moment>)
    requires IsRun(sv, run) && After(run).ackLoop == Holding(rec)
    ensures IsRun(sv, run')
    ensures var s, s' := After(run), After(run');
            var found := SocketRegistry.Find(Registered(s), rec.value.socketId);
            && s'.sockets == s.sockets && s'.calls == s.calls && s'.kafkaLoop == s.kafkaLoop && s'.kafkaPending == s.kafkaPending
            && if found.Some? then s'.ackLoop == Sending(Route(rec, found.value.id, |s.sockets|)) && s'.routed == s.routed + [s'.ackLoop.route]
               else s'.missed == s.missed + [rec] && s'.routed == s.routed
  {
    hide SocketRegistry.After, IsRun, After;
    Extend(sv, run, Lookup);
    run' := Longer(sv, run, Lookup);
  }

  // ---------------------------------------------------------------- a reused UUID

  lemma FindsSecond(uuid: string)
    ensures var a, b := SocketRegistry.Socket(0, uuid), SocketRegistry.Socket(1, uuid);
            var calls := [SocketRegistry.Register(a)] + [SocketRegistry.Deregister(a)] + [SocketRegistry.Register(b)];
            && SocketRegistry.Find(SocketRegistry.After(calls), uuid) == Some(b)
            && SocketRegistry.NeverShared(calls)
  {
    var a, b := SocketRegistry.Socket(0, uuid), SocketRegistry.Socket(1, uuid);
    var one := [SocketRegistry.Register(a)];
    var two := one + [SocketRegistry.Deregister(a)];
    var calls := [SocketRegistry.Register(a)] + [SocketRegistry.Deregister(a)] + [SocketRegistry.Register(b)];
    assert calls[..2] == two && two[..1] == one && one[..0] == [];
    assert SocketRegistry.Live(one) == {a} && SocketRegistry.NeverShared(one);
    assert SocketRegistry.Live(two) == {} && SocketRegistry.NeverShared(two);
    SocketRegistry.FindsLastRegistered(calls, uuid, b);
  }

  /** A vehicle connects, and hands its record over. */
  lemma Delivering(sv: Server, uuid: string, identity: RequestIdentity, frame: Frame) returns (run: seq<Moment>)
    requires ForKafka(sv, uuid, identity, frame)
    ensures IsRun(sv, run)
    ensures var s := After(run);
            && s.calls == [SocketRegistry.Register(SocketRegistry.Socket(0, uuid))]
            && |s.sockets| == 1 && s.sockets[0].uuid == uuid && s.sockets[0].phase.Open? && s.sockets[0].writer.Running?
            && s.sockets[0].todo == [] && s.sockets[0].queue == []
            && RecordOf(sv, 0, uuid, identity, frame) in s.kafkaPending && s.kafkaLoop.None? && s.ackLoop.Waiting?
  {
    NoRun(sv);
    run := Connecting(sv, [], uuid, identity);
    hide ForKafka, RecordOf, RecordFor, IsRun, After;
    run := HandingOver(sv, run, 0, uuid, identity, frame);
  }

  /** And it leaves, and comes back under the same UUID. */
  lemma ComingBack(sv: Server, uuid: string, identity: RequestIdentity, frame: Frame) returns (run: seq<Moment>)
    requires ForKafka(sv, uuid, identity, frame)
    ensures IsRun(sv, run)
    ensures var s := After(run);
            && s.calls == [SocketRegistry.Register(SocketRegistry.Socket(0, uuid))]
                          + [SocketRegistry.Deregister(SocketRegistry.Socket(0, uuid))]
                          + [SocketRegistry.Register(SocketRegistry.Socket(1, uuid))]
            && RecordOf(sv, 0, uuid, identity, frame) in s.kafkaPending && s.kafkaLoop.None? && s.ackLoop.Waiting?
  {
    hide ForKafka, RecordOf, RecordFor, IsRun, After;
    run := Delivering(sv, uuid, identity, frame);
    run := Ending(sv, run, 0);
    run := Leaving(sv, run, 0);
    run := Connecting(sv, run, uuid, identity);
  }

  /** Even if no two connections that are live at the same time share a UUID, an acknowledgement can
      go to a connection that never read the record: to one that came later under the same UUID. */
  lemma ReusedUuidMisroutes(sv: Server, uuid: string, identity: RequestIdentity, frame: Frame) returns (run: seq<Moment>, route: Route)
    requires ForKafka(sv, uuid, identity, frame)
    ensures IsRun(sv, run) && route in After(run).routed
    ensures SocketRegistry.NeverShared(After(run).calls)
    ensures route.rec.owner == 0 && route.target == 1
  {
    var rec := RecordOf(sv, 0, uuid, identity, frame);
    assert PassesOn(sv, Kafka, rec.value.txType) && rec.value.socketId == uuid && rec.owner == 0;
    hide SocketRegistry.After, SocketRegistry.NeverShared, ForKafka, RecordOf, IsRun, After, PassesOn;
    run := ComingBack(sv, uuid, identity, frame);
    FindsSecond(uuid);
    run := Confirming(sv, run, rec);
    run := LookingUp(sv, run, rec);
    route := After(run).ackLoop.route;
  }

  // ---------------------------------------------------------------- a namesake that leaves

  lemma FindsNobody(uuid: string)
    ensures var a, b := SocketRegistry.Socket(0, uuid), SocketRegistry.Socket(1, uuid);
            var calls := [SocketRegistry.Register(a)] + [SocketRegistry.Register(b)] + [SocketRegistry.Deregister(a)];
            SocketRegistry.Find(SocketRegistry.After(calls), uuid) == None
  {
    var a, b := SocketRegistry.Socket(0, uuid), SocketRegistry.Socket(1, uuid);
    var calls := [SocketRegistry.Register(a)] + [SocketRegistry.Register(b)] + [SocketRegistry.Deregister(a)];
    if SocketRegistry.Find(SocketRegistry.After(calls), uuid).Some? {
      SocketRegistry.FindsLastRegistered(calls, uuid, SocketRegistry.Find(SocketRegistry.After(calls), uuid).value);
    }
  }

  /** Two connections share a UUID, and the older one leaves. */
  lemma NamesakeLeaves(sv: Server, uuid: string, identity: RequestIdentity) returns (run: seq<Moment>)
    ensures IsRun(sv, run)
    ensures var s := After(run);
            && s.calls == [SocketRegistry.Register(SocketRegistry.Socket(0, uuid))]
                          + [SocketRegistry.Register(SocketRegistry.Socket(1, uuid))]
                          + [SocketRegistry.Deregister(SocketRegistry.Socket(0, uuid))]
            && |s.sockets| == 2 && s.sockets[1] == NewSocket(uuid, identity)
            && s.kafkaLoop.None? && s.ackLoop.Waiting? && s.routed == [] && s.missed == []
  {
    NoRun(sv);
    run := Connecting(sv, [], uuid, identity);
    hide IsRun, After, Enabled, Next;
    Starts(sv, After(run), 0, uuid, identity);
    Extend(sv, run, Start(0));
    run := Longer(sv, run, Start(0));
    run := Ending(sv, run, 0);
    run := Connecting(sv, run, uuid, identity);
    run := Leaving(sv, run, 0);
  }

  /** The record of a connection that is live, and the newest under its UUID, can be missed: an older
      connection with the same UUID takes the entry of both with it when it leaves. */
  lemma NamesakeTakesEntry(sv: Server, uuid: string, identity: RequestIdentity, frame: Frame) returns (run: seq<Moment>, rec: Rec)
    requires ForKafka(sv, uuid, identity, frame)
    ensures IsRun(sv, run) && After(run).missed == [rec] && After(run).routed == []
    ensures rec.owner == 1 && |After(run).sockets| == 2 && !After(run).sockets[1].phase.Gone?
  {
    rec := RecordOf(sv, 1, uuid, identity, frame);
    assert PassesOn(sv, Kafka, rec.value.txType) && rec.value.socketId == uuid && rec.owner == 1;
    hide SocketRegistry.After, ForKafka, RecordOf, RecordFor, IsRun, After, PassesOn;
    run := NamesakeLeaves(sv, uuid, identity);
    FindsNobody(uuid);
    run := HandingOver(sv, run, 1, uuid, identity, frame);
    run := Confirming(sv, run, rec);
    run := LookingUp(sv, run, rec);
  }

  // ---------------------------------------------------------------- a vehicle that stops reading

  /** After an oversized message and the error response to it. */
  lemma Refusing(sv: Server, run: seq<Moment>, frame: Frame) returns (run': seq<Moment>)
    requires IsRun(sv, run) && frame.binary && frame.admitted && |frame.data.bytes| > MESSAGE_LIMIT
    requires var s := After(run);
             |s.sockets| == 1 && s.sockets[0].phase.Open? && s.sockets[0].todo == [] && |s.sockets[0].queue| < QUEUE_LIMIT
    ensures IsRun(sv, run')
    ensures var s, s' := After(run), After(run');
            && s' == s.(sockets := s'.sockets) && |s'.sockets| == 1
            && s'.sockets[0].phase.Open? && s'.sockets[0].todo == [] && s'.sockets[0].writer == s.sockets[0].writer
            && s'.sockets[0].uuid == s.sockets[0].uuid
            && |s'.sockets[0].queue| == |s.sockets[0].queue| + 1
  {
    var k := After(run).sockets[0];
    OversizedTasks(sv, k, frame);
    hide InputTasks, IsRun, After;
    Extend(sv, run, Receive(0, frame));
    run' := Longer(sv, run, Receive(0, frame));
    Extend(sv, run', Reply(0));
    run' := Longer(sv, run', Reply(0));
  }

  lemma OversizedTasks(sv: Server, k: Delivery.Socket, frame: Frame)
    requires frame.admitted && |frame.data.bytes| > MESSAGE_LIMIT
    ensures var tasks := InputTasks(0, ConnectionOf(sv, k), |k.inputs|, Message(frame));
            |tasks| == 1 && tasks[0].Do? && tasks[0].act.Error?
  {
  }

  lemma {:induction false} Filling(sv: Server, run: seq<Moment>, frame: Frame, n: nat) returns (run': seq<Moment>)
    requires IsRun(sv, run) && frame.binary && frame.admitted && |frame.data.bytes| > MESSAGE_LIMIT
    requires var s := After(run);
             |s.sockets| == 1 && s.sockets[0].phase.Open? && s.sockets[0].todo == [] && |s.sockets[0].queue| + n <= QUEUE_LIMIT
    ensures IsRun(sv, run')
    ensures var s, s' := After(run), After(run');
            && s' == s.(sockets := s'.sockets) && |s'.sockets| == 1
            && s'.sockets[0].phase.Open? && s'.sockets[0].todo == [] && s'.sockets[0].writer == s.sockets[0].writer
            && s'.sockets[0].uuid == s.sockets[0].uuid
            && |s'.sockets[0].queue| == |s.sockets[0].queue| + n
  {
    hide IsRun, After;
    if n == 0 {
      run' := run;
    } else {
      var more := Filling(sv, run, frame, n - 1);
      run' := Refusing(sv, more, frame);
    }
  }

  /** A writer that has been told to stops. */
  lemma Stopping(sv: Server, run: seq<Moment>, c: nat) returns (run': seq<Moment>)
    requires IsRun(sv, run) && c < |After(run).sockets|
    requires After(run).sockets[c].phase.Closed? && After(run).sockets[c].writer.Running?
    ensures IsRun(sv, run') && After(run') == With(After(run), c, After(run).sockets[c].(writer := Stopped))
  {
    hide IsRun, After;
    Extend(sv, run, StopWriter(c));
    run' := Longer(sv, run, StopWriter(c));
  }

  /** The vehicle takes no responses until the queue is full, and then Kafka confirms its record. */
  lemma Clogging(sv: Server, uuid: string, identity: RequestIdentity, frame: Frame, big: Frame) returns (run: seq<Moment>)
    requires ForKafka(sv, uuid, identity, frame)
    requires big.binary && big.admitted && |big.data.bytes| > MESSAGE_LIMIT
    ensures IsRun(sv, run)
    ensures var s := After(run);
            && s.ackLoop.Sending? && s.ackLoop.route.target == 0 && |s.sockets| == 1 && |s.sockets[0].queue| == QUEUE_LIMIT
            && s.sockets[0].phase.Open? && s.sockets[0].todo == [] && s.sockets[0].writer.Running?
  {
    var rec := RecordOf(sv, 0, uuid, identity, frame);
    assert PassesOn(sv, Kafka, rec.value.txType) && rec.value.socketId == uuid;
    hide ForKafka, RecordOf, RecordFor, IsRun, After, SocketRegistry.After, PassesOn;
    run := Delivering(sv, uuid, identity, frame);
    run := Filling(sv, run, big, QUEUE_LIMIT);
    FindsFirst(uuid);
    run := Confirming(sv, run, rec);
    run := LookingUp(sv, run, rec);
  }

  /** One record that Kafka confirms late leaves the acknowledgement loop waiting for good, if its
      vehicle takes no responses until the queue is full, and then hangs up: the writer, told to
      stop, need not empty the queue first. */
  lemma HangingUpWedges(sv: Server, uuid: string, identity: RequestIdentity, frame: Frame, big: Frame) returns (run: seq<Moment>)
    requires ForKafka(sv, uuid, identity, frame)
    requires big.binary && big.admitted && |big.data.bytes| > MESSAGE_LIMIT
    ensures IsRun(sv, run) && LoopWedged(After(run))
  {
    hide ForKafka, IsRun, After;
    run := Clogging(sv, uuid, identity, frame, big);
    run := Ending(sv, run, 0);
    run := Stopping(sv, run, 0);
  }

  lemma FindsFirst(uuid: string)
    ensures SocketRegistry.Find(SocketRegistry.After([SocketRegistry.Register(SocketRegistry.Socket(0, uuid))]), uuid)
         == Some(SocketRegistry.Socket(0, uuid))
  {
    SocketRegistry.FindsLastRegistered([SocketRegistry.Register(SocketRegistry.Socket(0, uuid))], uuid, SocketRegistry.Socket(0, uuid));
  }

  // ---------------------------------------------------------------- a server on which both happen

  const TOPIC := "x"

  /** Nothing can be unmarshalled. */
  const SILENT := Codec(_ => None, _ => None, _ => None, _ => false, (_, _) => None, (_, _) => None, _ => None, _ => None)

  /** Records of one type are dispatched by this rule, and Kafka has to confirm them. */
  function ServerFor(rule: seq<Dispatcher>): (sv: Server)
    requires Kafka in rule
    ensures WellConfigured(sv)
  {
    var rules, sources := map[TOPIC := rule], map[TOPIC := Kafka];
    assert Kafka in rules[TOPIC];
    Server(Settings(rules, sources, false, false), ReliableAckConfig.Inverse(sources), SILENT, RedisProducer.Config("", false, "", {}), 0)
  }

  function SmallServer(): (sv: Server)
    ensures WellConfigured(sv)
  {
    ServerFor([Kafka])
  }

  const CLIENT := RequestIdentity("d", "t.d", "")

  const PAYLOAD: Bytes := [2]

  function SmallFields(topic: string): (f: TeslaMessages.Fields) {
    TeslaMessages.Fields([], ToBytes(topic), [1], PAYLOAD, 0, [], [], [], 0)
  }

  function SmallFrame(topic: string): (f: Frame) {
    Frame(true, Slice(TeslaMessages.StreamToBytes(SmallFields(topic)), []), true, 0)
  }

  function BigFrame(): (f: Frame)
    ensures |f.data.bytes| > MESSAGE_LIMIT
  {
    Frame(true, Slice(seq(MESSAGE_LIMIT + 1, _ => 0), []), true, 0)
  }

  lemma SmallParses(topic: string)
    requires |topic| < 1000
    ensures var data := SmallFrame(topic).data;
            && |data.bytes| <= MESSAGE_LIMIT
            && StreamMessages.FromBytes(data).Ok? && StreamMessages.FromBytes(data).value.fields == SmallFields(topic)
  {
    hide StreamMessages.FromBytes, TeslaMessages.StreamToBytes, TeslaMessages.HasEnvelope, TeslaMessages.HasStream, ToBytes;
    var _, _ := TeslaMessages.StreamHeld(SmallFields(topic));
    StreamMessages.StreamRoundTrip(SmallFields(topic), []);
  }

  /** The message is accepted if its type has a rule, and its payload can be rewritten. */
  lemma SmallIsAccepted(sv: Server, uuid: string, topic: string)
    requires topic in sv.settings.rules && !sv.settings.transmitDecoded && |topic| < 1000 && ToString(ToBytes(topic)) == topic
    requires Rewritable(sv.codec, topic, PAYLOAD, CLIENT.deviceId, false)
    ensures var r := ConnectionOf(sv, Reading(uuid, CLIENT)).Parse(SmallFrame(topic));
            r.error.None? && r.record.txType == topic
    ensures StreamMessages.FromBytes(SmallFrame(topic).data).Ok?
            && StreamMessages.FromBytes(SmallFrame(topic).data).value.fields.payload == PAYLOAD
  {
    SmallParses(topic);
    hide StreamMessages.FromBytes, TeslaMessages.StreamToBytes, RecordFor, Rewritable, ToBytes, ToString;
    var conn := ConnectionOf(sv, Reading(uuid, CLIENT));
    var message := SmallFrame(topic).data;
    hide SmallFrame;
    RawBytesKeepFields(conn.context, conn.codec, message, uuid, false, 0, []);
    AcceptedExactly(conn.context, conn.codec, message, uuid, false, 0);
  }

  lemma SmallIsForKafka(sv: Server, uuid: string)
    requires sv == SmallServer()
    ensures ForKafka(sv, uuid, CLIENT, SmallFrame(TOPIC))
  {
    hide RecordFor, TeslaMessages.StreamToBytes, ForKafka;
    assert ToString(ToBytes(TOPIC)) == TOPIC;
    SmallIsAccepted(sv, uuid, TOPIC);
    AcceptedIsForKafka(sv, uuid, CLIENT, SmallFrame(TOPIC));
  }

  /** There is a well configured server with a run after which no record of any connection will ever
      be acknowledged again: a thousand responses wait for a writer that has stopped. */
  lemma WedgeHappens() returns (sv: Server, run: seq<Moment>)
    ensures WellConfigured(sv) && IsRun(sv, run) && LoopWedged(After(run))
    ensures var k := After(run).sockets[After(run).ackLoop.route.target]; |k.queue| == 1000 && k.writer.Stopped?
  {
    sv := SmallServer();
    SmallIsForKafka(sv, "u");
    hide ForKafka, IsRun, WellConfigured, After;
    run := HangingUpWedges(sv, "u", CLIENT, SmallFrame(TOPIC), BigFrame());
  }

  /** There is a well configured server with a run in which a live connection, the newest under its
      UUID, has a confirmed record that is missed. */
  lemma MissHappens() returns (sv: Server, run: seq<Moment>, rec: Rec)
    ensures WellConfigured(sv) && IsRun(sv, run) && After(run).missed == [rec]
    ensures rec.owner == 1 && |After(run).sockets| == 2 && !After(run).sockets[1].phase.Gone?
  {
    sv := SmallServer();
    SmallIsForKafka(sv, "u");
    hide ForKafka, IsRun, WellConfigured;
    run, rec := NamesakeTakesEntry(sv, "u", CLIENT, SmallFrame(TOPIC));
  }

  /** There is a well configured server with a run in which no UUID is ever shared by connections that
      are live at the same time, and an acknowledgement goes to the wrong connection. */
  lemma MisroutingHappens() returns (sv: Server, run: seq<Moment>, route: Route)
    ensures WellConfigured(sv) && IsRun(sv, run) && route in After(run).routed
    ensures SocketRegistry.NeverShared(After(run).calls) && route.target != route.rec.owner
  {
    sv := SmallServer();
    SmallIsForKafka(sv, "u");
    hide ForKafka, IsRun, WellConfigured, SocketRegistry.NeverShared;
    run, route := ReusedUuidMisroutes(sv, "u", CLIENT, SmallFrame(TOPIC));
  }
}
