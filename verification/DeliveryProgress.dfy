/** When the server gets on with its work, and the one way in which it can stop doing so. */
module DeliveryProgress {
  import opened GoTypes
  import opened Dispatchers
  import opened Serializer
  import opened SocketManagers
  import opened Delivery
  import opened DeliveryQueues
  import DeliveryConservation
  import DeliveryRouting
  import SocketRegistry
  import ReliableAckConfig
  import RedisProducer
  import MqttProducer

  /** The steps the server takes by itself. The others wait for vehicles or for a delivery report. */
  predicate Internal(l: Label) {
    !l.Connect? && !l.Receive? && !l.EndReading? && !l.KafkaReport?
  }

  // ---------------------------------------------------------------- work only gets less

  function TaskWeight(task: Task): (n: nat) {
    if task.Push? then 4 else if task.act.Produce? then 5 else 2
  }

  function TodoWeight(todo: seq<Task>): (n: nat) {
    if todo == [] then 0 else TaskWeight(todo[0]) + TodoWeight(todo[1..])
  }

  /** The work of a connection: its tasks, its queue, its writer, and what starting and leaving entail. */
  function Weight(sv: Server, k: Socket): (n: nat) {
    TodoWeight(k.todo) + |k.queue| + (if k.writer.Running? then 1 else 0)
    + match k.phase
      case Starting => 4 + 5 * |Rule(sv.settings, CONNECTIVITY)|
      case Open => 2 + 5 * |Rule(sv.settings, CONNECTIVITY)|
      case Closed => 1 + 5 * |Rule(sv.settings, CONNECTIVITY)|
      case Gone => 0
  }

  function Total(sv: Server, sockets: seq<Socket>): (n: nat) {
    if sockets == [] then 0 else Total(sv, sockets[..|sockets| - 1]) + Weight(sv, sockets[|sockets| - 1])
  }

  function Work(sv: Server, s: State): (n: nat) {
    Total(sv, s.sockets) + (if s.kafkaLoop.Some? then 4 else 0)
    + match s.ackLoop case Waiting => 0 case Holding(_) => 3 case Sending(_) => 2
  }

  lemma {:induction false} TotalUpdate(sv: Server, sockets: seq<Socket>, c: nat, k: Socket)
    requires c < |sockets|
    ensures Total(sv, sockets[c := k]) + Weight(sv, sockets[c]) == Total(sv, sockets) + Weight(sv, k)
  {
    hide Weight;
    var n := |sockets| - 1;
    if c == n {
      assert sockets[c := k][..n] == sockets[..n];
    } else {
      assert sockets[c := k][..n] == sockets[..n][c := k];
      TotalUpdate(sv, sockets[..n], c, k);
    }
  }

  lemma {:induction false} DispatchWeight(rec: Rec, acts: seq<Act>)
    requires forall act <- acts :: act.Produce?
    ensures TodoWeight(Tasks(rec, acts)) == 5 * |acts|
  {
    if acts != [] {
      assert Tasks(rec, acts)[1..] == Tasks(rec, acts[1..]);
      DispatchWeight(rec, acts[1..]);
    }
  }

  /** What the next step of a connection leaves the acknowledgement loop with. */
  function HandedOn(l: Label): (n: nat) {
    if l.PushAck? then 3 else 0
  }

  /** Announcing that it leaves costs a connection as much as there are producers to tell. */
  lemma LeavingWeight(sv: Server, c: nat, k: Socket, event: Option<RecordValue>)
    requires k.todo == [] && IsEvent(k, event)
    ensures TodoWeight(Announced(sv, c, k, event).todo) <= 5 * |Rule(sv.settings, CONNECTIVITY)|
    ensures Announced(sv, c, k, event).(todo := k.todo, inputs := k.inputs) == k
  {
    hide Parsed;
    if event.Some? {
      var rec := Rec(c, |k.inputs|, Parsed(ConnectionOf(sv, k), Event(event.value)));
      DispatchWeight(rec, Dispatches(sv.settings.rules, CONNECTIVITY));
      assert Given(sv, c, k, Event(event.value)).todo == Tasks(rec, Dispatches(sv.settings.rules, CONNECTIVITY));
    }
  }

  /** A dispatch, tried or unwound from, is worth more than what it may leave to pass on. */
  lemma TriedWeight(k: Socket, pass: bool)
    requires k.todo != [] && k.todo[0].Do? && k.todo[0].act.Produce?
    ensures TodoWeight(Tried(k, pass).todo) < TodoWeight(k.todo)
  {
    var rest := k.todo[1..];
    assert ([Push(k.todo[0].rec)] + rest)[1..] == rest;
    assert [] + rest == rest;
  }

  lemma WeightDecreases(sv: Server, c: nat, k: Socket, l: Label)
    requires AtSocket(l) && EnabledAt(k, true, l) && Internal(l)
    ensures Weight(sv, StepAt(sv, c, k, l)) + HandedOn(l) < Weight(sv, k)
  {
    hide PassesAfter, TaskCrashes, Announced, Rule;
    if l.Leave? {
      LeavingWeight(sv, c, k.(phase := Gone), l.event);
    } else if l.Dispatch? {
      TriedWeight(k, PassesAfter(sv, k.todo[0], l.attempt));
    }
  }

  /** The loops after a step of a connection. */
  lemma LoopsAfter(sv: Server, s: State, l: Label)
    requires AtSocket(l) && Enabled(s, l)
    ensures var e := EffectAt(sv, s, l);
            && e.kafkaLoop == s.kafkaLoop
            && if l.PushAck? then s.ackLoop.Waiting? && e.ackLoop.Holding? else e.ackLoop == s.ackLoop
  {
    hide ConfirmsNow, Confirms;
  }

  /** Every step the server takes by itself leaves less work. */
  lemma WorkDecreases(sv: Server, s: State, l: Label)
    requires Enabled(s, l) && Internal(l)
    ensures Work(sv, Next(sv, s, l)) < Work(sv, s)
  {
    hide Total, Weight, StepAt, EffectAt, SocketRegistry.After;
    if AtSocket(l) {
      TotalUpdate(sv, s.sockets, l.c, StepAt(sv, l.c, s.sockets[l.c], l));
      DeliveryConservation.WhileWaiting(s, l);
      WeightDecreases(sv, l.c, s.sockets[l.c], l);
      LoopsAfter(sv, s, l);
    } else if l.Deliver? {
      var t := s.ackLoop.route.target;
      var k := s.sockets[t];
      var k' := Enqueued(k, Response(s.ackLoop.route.rec, true));
      TotalUpdate(sv, s.sockets, t, k');
      EnqueuedWeight(sv, k, Response(s.ackLoop.route.rec, true));
    }
  }

  lemma EnqueuedWeight(sv: Server, k: Socket, r: Response)
    ensures Weight(sv, Enqueued(k, r)) == Weight(sv, k) + 1
  {
  }

  /** Left to itself, the server comes to rest within as many steps as there is work. */
  lemma {:induction false} ComesToRest(sv: Server, run: seq<Moment>, n: nat)
    requires IsRun(sv, run) && n <= |run| && forall i :: n <= i < |run| ==> Internal(run[i].step)
    ensures |run| - n + Work(sv, After(run)) <= Work(sv, After(run[..n]))
  {
    hide Next, Enabled, Work;
    if n == |run| {
      assert run[..n] == run;
    } else {
      var before := run[..|run| - 1];
      LastStep(sv, run);
      ComesToRest(sv, before, n);
      assert before[..n] == run[..n];
      WorkDecreases(sv, After(before), run[|run| - 1].step);
    }
  }

  // ---------------------------------------------------------------- what can bring it to a halt

  /** A full queue that nobody empties any more. */
  predicate Wedged(k: Socket) {
    |k.queue| == QUEUE_LIMIT && k.writer.Stopped?
  }

  /** Before reading, a connection only announces itself; once done reading, it has nothing to do. */
  ghost predicate Orderly(k: Socket) {
    && (k.phase.Starting? ==> forall task <- k.todo :: IsAnnouncement(task))
    && (k.phase.Closed? ==> k.todo == [])
  }

  predicate IsAnnouncement(task: Task) {
    task.Do? && task.act.Produce? && task.rec.value.txType == CONNECTIVITY
  }

  /** The configuration refuses reliable acknowledgements of connectivity events. */
  lemma AnnouncementsAreNotPassedOn(sv: Server, task: Task, attempt: Attempt)
    requires WellConfigured(sv) && IsAnnouncement(task)
    ensures !PassesAfter(sv, task, attempt)
  {
    hide Confirms;
    ReliableAckConfig.OneSourcePerType(sv.settings.rules, sv.settings.sources, CONNECTIVITY, task.act.dispatcher);
  }

  lemma OrderlyStep(sv: Server, c: nat, k: Socket, l: Label)
    requires WellConfigured(sv) && AtSocket(l) && EnabledAt(k, true, l) && Orderly(k)
    ensures Orderly(StepAt(sv, c, k, l))
  {
    hide InputTasks, PassesAfter, WellConfigured;
    if l.Dispatch? && k.phase.Starting? {
      AnnouncementsAreNotPassedOn(sv, k.todo[0], l.attempt);
    }
  }

  lemma OrderlyNew(sv: Server, c: nat, uuid: string, identity: RequestIdentity, event: Option<RecordValue>)
    requires IsEvent(NewSocket(uuid, identity), event)
    ensures Orderly(Announced(sv, c, NewSocket(uuid, identity), event))
  {
  }

  lemma {:induction false} OrderlyHolds(sv: Server, run: seq<Moment>, c: nat)
    requires WellConfigured(sv) && IsRun(sv, run) && c < |After(run).sockets|
    ensures Orderly(After(run).sockets[c])
  {
    hide Next, Enabled, StepAt, EnabledAt, Announced, Orderly, WellConfigured;
    if run != [] {
      LastStep(sv, run);
      var before, l := run[..|run| - 1], run[|run| - 1].step;
      var s := After(before);
      SocketChanges(sv, s, l, c);
      if c < |s.sockets| {
        OrderlyHolds(sv, before, c);
        var k, k' := s.sockets[c], After(run).sockets[c];
        if IsOwnStep(sv, c, k, k', l) {
          OrderlyStep(sv, c, k, l);
        } else if IsDelivery(s, c, k, k', l) {
          OrderlyEnqueued(k, Response(s.ackLoop.route.rec, true));
        }
      } else {
        OrderlyNew(sv, c, l.uuid, l.identity, l.event);
      }
    }
  }

  lemma OrderlyEnqueued(k: Socket, r: Response)
    requires Orderly(k)
    ensures Orderly(Enqueued(k, r))
  {
  }

  /** What holds of every state a run can reach, as far as progress is concerned. */
  ghost predicate Sound(s: State) {
    && (forall c :: 0 <= c < |s.sockets| ==> Fifo(s.sockets[c]) && Orderly(s.sockets[c]))
    && (s.ackLoop.Sending? ==> s.ackLoop.route.target < |s.sockets|)
  }

  lemma SoundHolds(sv: Server, run: seq<Moment>)
    requires WellConfigured(sv) && IsRun(sv, run)
    ensures Sound(After(run))
  {
    hide Fifo, Orderly, IsRun, After, WellConfigured;
    var s := After(run);
    forall c: int | 0 <= c < |s.sockets|
      ensures Fifo(s.sockets[c]) && Orderly(s.sockets[c])
    {
      FifoHolds(sv, run, c);
      OrderlyHolds(sv, run, c);
    }
    if s.ackLoop.Sending? {
      DeliveryConservation.CountedHolds(sv, run);
      DeliveryRouting.AcknowledgedAtHome(sv, run, s.ackLoop.route);
    }
  }

  /** The server can take a step by itself. */
  ghost predicate CanStep(s: State) {
    exists l :: Internal(l) && Enabled(s, l)
  }

  /** The acknowledgement loop waits for room in a queue that will never have any. */
  predicate LoopWedged(s: State) {
    s.ackLoop.Sending? && s.ackLoop.route.target < |s.sockets| && Wedged(s.sockets[s.ackLoop.route.target])
  }

  /** The connection has nothing it could do now. One with tasks left waits to answer its own
      vehicle, or for the acknowledgement loop; and either waits for a queue nobody empties. */
  predicate AtRest(s: State, k: Socket) {
    && !k.phase.Starting? && !k.phase.Closed?
    && (k.writer.Running? ==> k.queue == [] && k.phase.Open?)
    && (k.todo == [] || (k.todo[0].Push? && LoopWedged(s)) || (k.todo[0].Do? && !k.todo[0].act.Produce? && Wedged(k)))
  }

  /** Nothing is going on: every connection is at rest, and each loop waits for work, or for room
      in a queue nobody empties. */
  ghost predicate Halted(s: State) {
    && (forall c :: 0 <= c < |s.sockets| ==> AtRest(s, s.sockets[c]))
    && (s.ackLoop.Waiting? || LoopWedged(s))
    && (s.kafkaLoop.Some? ==> LoopWedged(s))
  }

  /** An attempt that fits any producer. */
  function SomeAttempt(d: Dispatcher): (a: Attempt)
    ensures Fits(d, a)
  {
    match d
    case Redis => OnRedis([], 0, RedisProducer.Answers(false, false, (_: nat) => false))
    case Mqtt => OnMqtt((_: nat) => false, (_: nat) => MqttProducer.Token(None, true), (_: nat) => 0)
    case _ => Plain(false)
  }

  lemma Step(s: State, l: Label)
    requires Internal(l) && Enabled(s, l)
    ensures CanStep(s)
  {
  }

  /** A connection whose own step is not enabled is done, or waits for the loop, or for its queue. */
  lemma WaitsFor(s: State, c: nat)
    requires c < |s.sockets| && !CanStep(s) && Sound(s)
    ensures var k := s.sockets[c];
            && !k.phase.Starting? && !k.phase.Closed?
            && (k.writer.Running? ==> k.queue == [] && k.phase.Open?)
            && (k.todo == [] || (k.todo[0].Push? && !s.ackLoop.Waiting?)
                || (k.todo[0].Do? && !k.todo[0].act.Produce? && |k.queue| == QUEUE_LIMIT))
    ensures |s.sockets[c].queue| == QUEUE_LIMIT ==> Wedged(s.sockets[c])
  {
    hide CanStep;
    var k := s.sockets[c];
    assert Fifo(k) && Orderly(k);
    if k.phase.Starting? && k.todo != [] {
      assert IsAnnouncement(k.todo[0]);
    }
    if k.todo != [] {
      if k.todo[0].Push? {
        if s.ackLoop.Waiting? {
          Step(s, PushAck(c));
        }
      } else if k.todo[0].act.Produce? {
        Step(s, Dispatch(c, SomeAttempt(k.todo[0].act.dispatcher)));
      } else if |k.queue| < QUEUE_LIMIT {
        Step(s, Reply(c));
      }
    }
    if k.phase.Starting? {
      if k.todo == [] {
        Step(s, Start(c));
      }
    }
    if k.phase.Closed? {
      Step(s, Leave(c, None));
    }
    if k.writer.Running? {
      if k.queue != [] {
        Step(s, Write(c, true));
      }
      if k.phase.Gone? {
        Step(s, StopWriter(c));
      }
    }
  }

  /** The server comes to a halt exactly when everything left to do waits, directly or through the
      acknowledgement loop, for room in a full queue whose writer has stopped. */
  lemma HaltedExactly(sv: Server, run: seq<Moment>)
    requires WellConfigured(sv) && IsRun(sv, run)
    ensures !CanStep(After(run)) <==> Halted(After(run))
  {
    SoundHolds(sv, run);
    hide IsRun, After, WellConfigured;
    var s := After(run);
    if !CanStep(s) {
      MustBeHalted(s);
    } else {
      var l :| Internal(l) && Enabled(s, l);
      CannotBeHalted(s, l);
    }
  }

  lemma MustBeHalted(s: State)
    requires !CanStep(s) && Sound(s)
    ensures Halted(s)
  {
    hide CanStep, Fifo, Orderly, Wedged;
    if s.ackLoop.Holding? {
      Step(s, Lookup);
    } else if s.ackLoop.Sending? {
      var t := s.ackLoop.route.target;
      if |s.sockets[t].queue| < QUEUE_LIMIT {
        Step(s, Deliver);
      }
      assert |s.sockets[t].queue| == QUEUE_LIMIT by { assert Fifo(s.sockets[t]); FifoBound(s.sockets[t]); }
      WaitsFor(s, t);
    } else if s.kafkaLoop.Some? {
      Step(s, KafkaPush);
    }
    forall c | 0 <= c < |s.sockets|
      ensures AtRest(s, s.sockets[c])
    {
      WaitsFor(s, c);
    }
  }

  lemma FifoBound(k: Socket)
    requires Fifo(k)
    ensures |k.queue| <= QUEUE_LIMIT
  {
  }

  lemma CannotBeHalted(s: State, l: Label)
    requires Internal(l) && Enabled(s, l)
    ensures !Halted(s)
  {
    if AtSocket(l) {
      assert Halted(s) ==> AtRest(s, s.sockets[l.c]);
    }
  }

  /** As long as every full queue has a writer that has not stopped, work is never stuck: if no step
      is possible then nothing is left to do. */
  lemma Progress(sv: Server, run: seq<Moment>)
    requires WellConfigured(sv) && IsRun(sv, run) && !CanStep(After(run))
    requires forall k <- After(run).sockets :: !Wedged(k)
    ensures var s := After(run);
            && s.ackLoop.Waiting? && s.kafkaLoop.None?
            && forall c :: 0 <= c < |s.sockets| ==>
                 var k := s.sockets[c];
                 k.todo == [] && (k.phase.Open? || k.phase.Gone?) && (k.writer.Running? ==> k.queue == [])
  {
    HaltedExactly(sv, run);
    hide IsRun, After, WellConfigured, CanStep, Wedged;
    var s := After(run);
    assert forall c :: 0 <= c < |s.sockets| ==> s.sockets[c] in s.sockets;
  }

  lemma {:induction false} NothingHeld(sockets: seq<Socket>, x: Option<Rec>)
    requires forall c :: 0 <= c < |sockets| ==> sockets[c].todo == []
    ensures DeliveryConservation.Held(sockets, x) == 0
  {
    if sockets != [] {
      NothingHeld(sockets[..|sockets| - 1], x);
    }
  }

  /** When the server has come to rest, and no full queue has a stopped writer, nothing is in flight:
      every confirmation passed on has become an acknowledgement delivered to a connection, or a
      miss; for each record, and in total. */
  lemma EveryConfirmationSettles(sv: Server, run: seq<Moment>, rec: Rec)
    requires WellConfigured(sv) && IsRun(sv, run) && !CanStep(After(run))
    requires forall k <- After(run).sockets :: !Wedged(k)
    ensures var s := After(run);
            && DeliveryConservation.InFlight(s, None) == 0
            && DeliveryConservation.Passed(sv, s.confirmed, None) == |s.delivered| + |s.missed|
            && DeliveryConservation.Passed(sv, s.confirmed, Some(rec)) ==
               DeliveryConservation.Routed(s.delivered, Some(rec)) + DeliveryConservation.Missed(s.missed, Some(rec))
  {
    Progress(sv, run);
    DeliveryConservation.ConfirmationsConserved(sv, run, rec);
    hide IsRun, After, WellConfigured, CanStep, Wedged;
    NothingHeld(After(run).sockets, None);
    NothingHeld(After(run).sockets, Some(rec));
  }

  lemma WedgedStep(sv: Server, s: State, l: Label)
    requires Enabled(s, l) && LoopWedged(s) && Fifo(s.sockets[s.ackLoop.route.target])
    ensures var s' := Next(sv, s, l);
            && s'.ackLoop == s.ackLoop && s'.ackCount == s.ackCount && s'.missCount == s.missCount
            && s'.delivered == s.delivered && LoopWedged(s')
  {
    var t := s.ackLoop.route.target;
    NotOut(sv, s, l);
    SocketChanges(sv, s, l, t);
    if IsOwnStep(sv, t, s.sockets[t], Next(sv, s, l).sockets[t], l) {
      StaysWedged(sv, t, s.sockets[t], l);
    }
    hide Next, Enabled, Fifo;
  }

  lemma NotOut(sv: Server, s: State, l: Label)
    requires Enabled(s, l) && LoopWedged(s)
    ensures var s' := Next(sv, s, l);
            && s'.ackLoop == s.ackLoop && s'.ackCount == s.ackCount && s'.missCount == s.missCount
            && s'.delivered == s.delivered && |s.sockets| <= |s'.sockets|
  {
    hide StepAt, Announced, Enqueued, ConfirmsNow, SocketRegistry.After;
  }

  lemma StaysWedged(sv: Server, c: nat, k: Socket, l: Label)
    requires AtSocket(l) && EnabledAt(k, true, l) && Fifo(k) && Wedged(k)
    ensures Wedged(StepAt(sv, c, k, l))
  {
    hide InputTasks, PassesAfter;
  }

  /** Once the acknowledgement loop waits for a queue nobody empties, it waits forever: whatever
      happens afterwards, no record of any connection is acknowledged, or even missed, any more. */
  lemma {:induction false} WedgedForever(sv: Server, run: seq<Moment>, n: nat)
    requires IsRun(sv, run) && n <= |run| && LoopWedged(After(run[..n]))
    ensures var s, s' := After(run[..n]), After(run);
            && s'.ackLoop == s.ackLoop && s'.ackCount == s.ackCount && s'.missCount == s.missCount
            && s'.delivered == s.delivered && LoopWedged(s')
  {
    hide Next, Enabled, Fifo;
    if n == |run| {
      assert run[..n] == run;
    } else {
      var before := run[..|run| - 1];
      assert before[..n] == run[..n];
      LastStep(sv, run);
      WedgedForever(sv, before, n);
      var s := After(before);
      FifoHolds(sv, before, s.ackLoop.route.target);
      WedgedStep(sv, s, run[|run| - 1].step);
    }
  }
}
