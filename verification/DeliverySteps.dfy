/** What is recorded of a run is what its steps were: the state cannot claim a message, a confirmation
    or a write that no step stands for. */
module DeliverySteps {
  import opened GoTypes
  import opened Dispatchers
  import opened Serializer
  import opened SocketManagers
  import opened Delivery
  import DeliveryQueues
  import MqttProducer
  import RecordTransforms
  import RedisProducer
  import SocketRegistry

  /** How often a step was taken. */
  ghost function Taken(run: seq<Moment>, l: Label): (n: nat) {
    if run == [] then 0 else Taken(run[..|run| - 1], l) + if run[|run| - 1].step == l then 1 else 0
  }

  // ---------------------------------------------------------------- what counts as success

  /** The data store has the record, in the terms of its own answers. */
  ghost predicate Succeeds(sv: Server, rec: Rec, d: Dispatcher, a: Attempt) {
    match d
    case Redis =>
      && a.OnRedis? && (sv.redis.subscriberSetPrefix == "" || (a.answers.purge && a.answers.read))
      && var entry := RedisProducer.Entry(rec.value.txType, rec.value.vin, |rec.value.payload|);
         forall i :: 0 <= i < |RedisProducer.Selected(sv.redis, entry, a.members, a.now)| ==> a.answers.publish(i)
    case Mqtt =>
      var m := rec.value.message;
      && a.OnMqtt? && !m.NoMessage? && !(m.Signals? && RecordTransforms.LacksValue(m.data))
      && var n := MqttProducer.PublishCount(m);
         && (forall i :: 0 <= i < n ==> a.marshals(i))
         && var tokens := seq(n, i requires 0 <= i < n => a.broker(i));
            forall i :: 0 <= i < n ==> MqttProducer.InTime(tokens, a.lag, sv.mqttTimeout, i)
    case Logger => false
    case _ => a == Plain(true)
  }

  lemma ConfirmsExactly(sv: Server, rec: Rec, d: Dispatcher, a: Attempt)
    ensures Confirms(sv, rec, d, a) <==> Succeeds(sv, rec, d, a)
  {
    hide MqttProducer.InTime, MqttProducer.PublishCount, RedisProducer.Selected, RecordTransforms.LacksValue;
    if d.Mqtt? && a.OnMqtt? {
      var n := MqttProducer.PublishCount(rec.value.message);
      assert MqttProducer.TokensOf(n, a.broker) == seq(n, i requires 0 <= i < n => a.broker(i));
    }
  }

  // ---------------------------------------------------------------- confirmations

  /** What a reader would do next. */
  function Head(s: State, c: nat): (task: Option<Task>) {
    if c < |s.sockets| && s.sockets[c].todo != [] then Some(s.sockets[c].todo[0]) else None
  }

  /** The confirmations a step stands for: an error-free delivery report, or an attempt of a producer
      other than Kafka that succeeded while the reader waited. */
  ghost function ConfirmationsAt(sv: Server, s: State, l: Label): (xs: seq<Confirmation>) {
    match l
    case KafkaReport(rec, ok) => if ok then [Confirmation(rec, Kafka, Plain(true))] else []
    case Dispatch(c, a) =>
      (match Head(s, c)
       case Some(Do(rec, Produce(d))) => if d != Kafka && Succeeds(sv, rec, d, a) then [Confirmation(rec, d, a)] else []
       case _ => [])
    case _ => []
  }

  ghost function ConfirmationsOf(sv: Server, run: seq<Moment>): (xs: seq<Confirmation>) {
    if run == [] then []
    else
      var before := run[..|run| - 1];
      ConfirmationsOf(sv, before) + ConfirmationsAt(sv, After(before), run[|run| - 1].step)
  }

  lemma ConfirmationsStep(sv: Server, s: State, l: Label)
    requires Enabled(s, l)
    ensures Next(sv, s, l).confirmed == s.confirmed + ConfirmationsAt(sv, s, l)
  {
    hide StepAt, Announced, Enqueued, Confirms, Succeeds, SocketRegistry.After;
    if l.Dispatch? {
      var task := s.sockets[l.c].todo[0];
      ConfirmsExactly(sv, task.rec, task.act.dispatcher, l.attempt);
    }
  }

  /** In every run the confirmations are those its steps stand for, in order, and no others. */
  lemma {:induction false} ConfirmationsAreSteps(sv: Server, run: seq<Moment>)
    requires IsRun(sv, run)
    ensures After(run).confirmed == ConfirmationsOf(sv, run)
  {
    hide Next, Enabled, ConfirmationsAt;
    if run != [] {
      LastStep(sv, run);
      ConfirmationsAreSteps(sv, run[..|run| - 1]);
      ConfirmationsStep(sv, After(run[..|run| - 1]), run[|run| - 1].step);
    }
  }

  /** The `j`th step of the run is the data store's word for the record: Kafka's report that it was
      delivered, or the successful attempt of another producer whose turn it was. */
  ghost predicate VouchedAt(sv: Server, run: seq<Moment>, j: nat, rec: Rec, d: Dispatcher) {
    && j < |run|
    && if d == Kafka then run[j].step == KafkaReport(rec, true)
       else
         && run[j].step.Dispatch? && Head(After(run[..j]), run[j].step.c) == Some(Do(rec, Produce(d)))
         && Succeeds(sv, rec, d, run[j].step.attempt)
  }

  /** Every confirmation in a run has its step. */
  lemma {:induction false} ConfirmationHasStep(sv: Server, run: seq<Moment>, i: nat) returns (j: nat)
    requires IsRun(sv, run) && i < |After(run).confirmed|
    ensures VouchedAt(sv, run, j, After(run).confirmed[i].rec, After(run).confirmed[i].dispatcher)
    decreases |run|
  {
    hide Next, Enabled, Succeeds;
    LastStep(sv, run);
    var before := run[..|run| - 1];
    ConfirmationsStep(sv, After(before), run[|run| - 1].step);
    if i < |After(before).confirmed| {
      j := ConfirmationHasStep(sv, before, i);
      assert before[..j] == run[..j];
    } else {
      j := |run| - 1;
    }
  }

  // ---------------------------------------------------------------- what Kafka has

  /** How often Kafka took the record. */
  ghost function Handed(run: seq<Moment>, rec: Rec): (n: nat) {
    if run == [] then 0
    else
      var before := run[..|run| - 1];
      Handed(before, rec) + HandedAt(After(before), run[|run| - 1].step, rec)
  }

  ghost function HandedAt(s: State, l: Label, rec: Rec): (n: nat) {
    match l
    case Dispatch(c, a) => if Head(s, c) == Some(Do(rec, Produce(Kafka))) && a == Plain(true) then 1 else 0
    case _ => 0
  }

  lemma HandedStep(sv: Server, s: State, l: Label, rec: Rec)
    requires Enabled(s, l)
    ensures Next(sv, s, l).kafkaPending[rec] + (if l == KafkaReport(rec, true) || l == KafkaReport(rec, false) then 1 else 0)
         == s.kafkaPending[rec] + HandedAt(s, l, rec)
  {
    hide StepAt, Announced, Enqueued, ConfirmsNow, SocketRegistry.After;
  }

  /** In every run Kafka has yet to report on a record as often as it took it and has not reported. */
  lemma {:induction false} KafkaHasSteps(sv: Server, run: seq<Moment>, rec: Rec)
    requires IsRun(sv, run)
    ensures After(run).kafkaPending[rec] + Taken(run, KafkaReport(rec, true)) + Taken(run, KafkaReport(rec, false)) == Handed(run, rec)
  {
    hide Next, Enabled, HandedAt;
    if run != [] {
      LastStep(sv, run);
      KafkaHasSteps(sv, run[..|run| - 1], rec);
      HandedStep(sv, After(run[..|run| - 1]), run[|run| - 1].step, rec);
    }
  }

  // ---------------------------------------------------------------- what one connection read and wrote

  /** Whether the step makes the connection. */
  predicate Makes(s: State, l: Label, c: nat) {
    l.Connect? && c == |s.sockets|
  }

  /** The inputs a step gives a connection. */
  function InputsAt(s: State, l: Label, c: nat): (inputs: seq<Input>) {
    match l
    case Connect(_, _, event) => if Makes(s, l, c) then EventInput(event) else []
    case Receive(d, frame) => if d == c then [Message(frame)] else []
    case Leave(d, event) => if d == c then EventInput(event) else []
    case _ => []
  }

  function EventInput(event: Option<RecordValue>): (inputs: seq<Input>) {
    if event.Some? then [Event(event.value)] else []
  }

  function InputsOf(run: seq<Moment>, c: nat): (inputs: seq<Input>) {
    if run == [] then [] else InputsOf(run[..|run| - 1], c) + InputsAt(After(run[..|run| - 1]), run[|run| - 1].step, c)
  }

  /** What a step of its own does to what a connection read and wrote. */
  lemma OwnStepTells(sv: Server, s: State, l: Label)
    requires AtSocket(l) && l.c < |s.sockets| && EnabledAt(s.sockets[l.c], true, l) && DeliveryQueues.Fifo(s.sockets[l.c])
    ensures var c, k := l.c, s.sockets[l.c];
            var k' := StepAt(sv, c, k, l);
            && k'.uuid == k.uuid && k'.identity == k.identity && k'.inputs == k.inputs + InputsAt(s, l, c)
            && |k'.wire| == |k.wire| + (if l == Write(c, true) then 1 else 0)
            && |k'.lost| == |k.lost| + (if l == Write(c, false) then 1 else 0)
            && (k'.writer.NotStarted? <==> k.writer.NotStarted? && l != Start(c))
            && (k'.writer.Stopped? <==> k.writer.Stopped? || l == StopWriter(c) || l == Write(c, false))
  {
    hide InputTasks, PassesAfter, TaskCrashes;
  }

  /** What the steps say about a connection. */
  ghost predicate Told(run: seq<Moment>, c: nat, k: Delivery.Socket) {
    && k.inputs == InputsOf(run, c)
    && |k.wire| == Taken(run, Write(c, true)) && |k.lost| == Taken(run, Write(c, false))
    && (k.writer.NotStarted? <==> Taken(run, Start(c)) == 0)
    && (k.writer.Stopped? <==> Taken(run, StopWriter(c)) + Taken(run, Write(c, false)) > 0)
  }

  lemma SocketsGrow(sv: Server, s: State, l: Label)
    requires Enabled(s, l)
    ensures |Next(sv, s, l).sockets| == |s.sockets| + if l.Connect? then 1 else 0
    ensures AtSocket(l) ==> l.c < |s.sockets|
  {
    hide StepAt, EnabledAt, EffectAt, Announced, Enqueued, SocketRegistry.After;
  }

  lemma OwnStep(sv: Server, s: State, l: Label)
    requires Enabled(s, l) && AtSocket(l)
    ensures l.c < |s.sockets| && EnabledAt(s.sockets[l.c], true, l)
    ensures Next(sv, s, l).sockets == s.sockets[l.c := StepAt(sv, l.c, s.sockets[l.c], l)]
  {
    hide StepAt, EffectAt;
  }

  lemma NotOwn(sv: Server, s: State, l: Label, c: nat)
    requires Enabled(s, l) && !(AtSocket(l) && l.c == c) && c < |s.sockets|
    ensures c < |Next(sv, s, l).sockets|
    ensures Next(sv, s, l).sockets[c] == s.sockets[c] || IsDelivery(s, c, s.sockets[c], Next(sv, s, l).sockets[c], l)
  {
    hide StepAt, EffectAt, Announced, Enqueued, SocketRegistry.After;
  }

  lemma OthersTell(s: State, l: Label, c: nat)
    requires !(AtSocket(l) && l.c == c) && !Makes(s, l, c)
    ensures InputsAt(s, l, c) == []
    ensures l != Write(c, true) && l != Write(c, false) && l != Start(c) && l != StopWriter(c)
  {
  }

  lemma EnqueuedTells(k: Delivery.Socket, r: Response)
    ensures Enqueued(k, r).(queue := k.queue, queued := k.queued) == k
  {
  }

  lemma NewTells(sv: Server, s: State, l: Label)
    requires l.Connect?
    ensures var c := |s.sockets|;
            var k := Announced(sv, c, NewSocket(l.uuid, l.identity), l.event);
            && k.inputs == InputsAt(s, l, c) && k.wire == [] && k.lost == [] && k.writer.NotStarted?
            && l != Write(c, true) && l != Write(c, false) && l != Start(c) && l != StopWriter(c)
  {
    hide InputTasks;
  }

  /** In every run each connection has read, been told, written and lost what the steps say, and its
      writer has been started and stopped by them. */
  lemma {:induction false} ConnectionsAreSteps(sv: Server, run: seq<Moment>, c: nat)
    requires IsRun(sv, run)
    ensures if c < |After(run).sockets| then Told(run, c, After(run).sockets[c]) else NothingTold(run, c)
  {
    hide Next, Enabled, StepAt, EnabledAt, Enqueued, Announced, InputsAt, DeliveryQueues.Fifo;
    if run != [] {
      LastStep(sv, run);
      var before, l := run[..|run| - 1], run[|run| - 1].step;
      var s := After(before);
      ConnectionsAreSteps(sv, before, c);
      SocketsGrow(sv, s, l);
      if c < |After(run).sockets| {
        SocketChanges(sv, s, l, c);
        if c < |s.sockets| {
          var k, k' := s.sockets[c], After(run).sockets[c];
          DeliveryQueues.FifoHolds(sv, before, c);
          if AtSocket(l) && l.c == c {
            OwnStep(sv, s, l);
            OwnStepTells(sv, s, l);
          } else {
            OthersTell(s, l, c);
            NotOwn(sv, s, l, c);
            if IsDelivery(s, c, k, k', l) {
              EnqueuedTells(k, Response(s.ackLoop.route.rec, true));
            }
          }
        } else {
          NewTells(sv, s, l);
        }
      } else {
        assert !Makes(s, l, c);
        OthersTell(s, l, c);
      }
    }
  }

  /** No step is about a connection that has not been made. */
  ghost predicate NothingTold(run: seq<Moment>, c: nat) {
    && InputsOf(run, c) == [] && Taken(run, Write(c, true)) == Taken(run, Write(c, false)) == 0
    && Taken(run, Start(c)) == Taken(run, StopWriter(c)) == 0
  }

  /** Only binary frames are read. */
  lemma {:induction false} ReadsBinary(sv: Server, run: seq<Moment>, c: nat)
    requires IsRun(sv, run)
    ensures forall input <- InputsOf(run, c) :: input.Message? ==> input.frame.binary
  {
    hide Next, Enabled;
    if run != [] {
      LastStep(sv, run);
      ReadsBinary(sv, run[..|run| - 1], c);
      BinaryStep(After(run[..|run| - 1]), run[|run| - 1].step, c);
    }
  }

  lemma BinaryStep(s: State, l: Label, c: nat)
    requires Enabled(s, l)
    ensures forall input <- InputsAt(s, l, c) :: input.Message? ==> input.frame.binary
  {
  }

  // ---------------------------------------------------------------- who is connected

  /** The steps that made the connections. */
  ghost function MadeBy(run: seq<Moment>): (made: seq<Label>)
    ensures forall c :: 0 <= c < |made| ==> made[c].Connect?
  {
    if run == [] then []
    else MadeBy(run[..|run| - 1]) + if run[|run| - 1].step.Connect? then [run[|run| - 1].step] else []
  }

  lemma NamesKept(sv: Server, s: State, l: Label, c: nat)
    requires Enabled(s, l) && c < |s.sockets|
    ensures c < |Next(sv, s, l).sockets|
    ensures Next(sv, s, l).sockets[c].uuid == s.sockets[c].uuid && Next(sv, s, l).sockets[c].identity == s.sockets[c].identity
  {
    hide Next, Enabled, InputTasks, PassesAfter, TaskCrashes;
    SocketsGrow(sv, s, l);
    SocketChanges(sv, s, l, c);
  }

  lemma NewIsNamed(sv: Server, s: State, l: Label)
    requires Enabled(s, l) && l.Connect?
    ensures |Next(sv, s, l).sockets| == |s.sockets| + 1
    ensures var k := Next(sv, s, l).sockets[|s.sockets|]; k.uuid == l.uuid && k.identity == l.identity
  {
    hide InputTasks;
  }

  /** In every run each connection goes by the UUID and the identity it was made with. */
  lemma {:induction false} ConnectionsAreMade(sv: Server, run: seq<Moment>)
    requires IsRun(sv, run)
    ensures |After(run).sockets| == |MadeBy(run)|
    ensures forall c :: 0 <= c < |MadeBy(run)| ==>
              After(run).sockets[c].uuid == MadeBy(run)[c].uuid && After(run).sockets[c].identity == MadeBy(run)[c].identity
  {
    hide Next, Enabled;
    if run != [] {
      LastStep(sv, run);
      var before, l := run[..|run| - 1], run[|run| - 1].step;
      var s := After(before);
      ConnectionsAreMade(sv, before);
      SocketsGrow(sv, s, l);
      forall c: int | 0 <= c < |MadeBy(run)|
        ensures After(run).sockets[c].uuid == MadeBy(run)[c].uuid && After(run).sockets[c].identity == MadeBy(run)[c].identity
      {
        if c < |s.sockets| {
          NamesKept(sv, s, l, c);
        } else {
          NewIsNamed(sv, s, l);
        }
      }
    }
  }
}
