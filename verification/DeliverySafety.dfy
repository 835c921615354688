/** No vehicle is told that a record is safe before the data store that vouches for it has said so. */
module DeliverySafety {
  import opened GoTypes
  import opened Dispatchers
  import opened Serializer
  import opened SocketManagers
  import opened Delivery
  import DeliverySteps
  import SocketRegistry

  /** The type of the record has a source of reliable acknowledgements. The empty type stands for
      messages that are no stream messages, which are acknowledged regardless. */
  predicate NeedsProof(sv: Server, rec: Rec) {
    rec.value.txType != "" && rec.value.txType in sv.settings.sources
  }

  /** The source configured for the type of this very record has confirmed it. */
  ghost predicate IsConfirmed(sv: Server, confirmed: seq<Confirmation>, rec: Rec) {
    && rec.value.txType in sv.settings.sources
    && exists i :: 0 <= i < |confirmed| && ConfirmedBy(sv, confirmed[i], rec)
  }

  ghost predicate ConfirmedBy(sv: Server, x: Confirmation, rec: Rec)
    requires rec.value.txType in sv.settings.sources
  {
    x.rec == rec && x.dispatcher == sv.settings.sources[rec.value.txType] && Confirms(sv, rec, x.dispatcher, x.attempt)
  }

  lemma ConfirmedGrows(sv: Server, confirmed: seq<Confirmation>, x: Confirmation, rec: Rec)
    requires IsConfirmed(sv, confirmed, rec)
    ensures IsConfirmed(sv, confirmed + [x], rec)
  {
    hide ConfirmedBy;
    var i :| 0 <= i < |confirmed| && ConfirmedBy(sv, confirmed[i], rec);
    assert (confirmed + [x])[i] == confirmed[i];
  }

  /** A record of the connection with this UUID, whose confirmation may be passed on. */
  ghost predicate RecordOf(rec: Rec, c: nat, uuid: string) {
    rec.owner == c && rec.value.socketId == uuid
  }

  ghost predicate TaskSafe(sv: Server, confirmed: seq<Confirmation>, c: nat, uuid: string, task: Task) {
    match task
    case Push(rec) => RecordOf(rec, c, uuid) && IsConfirmed(sv, confirmed, rec)
    case Do(rec, Ack) => !NeedsProof(sv, rec)
    case Do(rec, Produce(_)) => RecordOf(rec, c, uuid)
    case Do(_, Error) => true
  }

  ghost predicate ResponseSafe(sv: Server, confirmed: seq<Confirmation>, r: Response) {
    r.ok && NeedsProof(sv, r.rec) ==> IsConfirmed(sv, confirmed, r.rec)
  }

  ghost predicate SocketSafe(sv: Server, confirmed: seq<Confirmation>, c: nat, k: Socket) {
    && (forall task <- k.todo :: TaskSafe(sv, confirmed, c, k.uuid, task))
    && (forall r <- k.queued :: ResponseSafe(sv, confirmed, r))
  }

  /** The record belongs to one of the connections. */
  ghost predicate Known(s: State, rec: Rec) {
    rec.owner < |s.sockets| && rec.value.socketId == s.sockets[rec.owner].uuid
  }

  /** The record the acknowledgement loop is busy with. */
  ghost function InHand(loop: AckLoop): (r: Option<Rec>) {
    match loop
    case Waiting => None
    case Holding(rec) => Some(rec)
    case Sending(route) => Some(route.rec)
  }

  ghost predicate LoopSafe(sv: Server, s: State, rec: Option<Rec>) {
    rec.Some? ==> Known(s, rec.value) && IsConfirmed(sv, s.confirmed, rec.value)
  }

  ghost predicate LoopsSafe(sv: Server, s: State) {
    && (forall rec :: rec in s.kafkaPending ==> Known(s, rec))
    && LoopSafe(sv, s, s.kafkaLoop)
    && LoopSafe(sv, s, InHand(s.ackLoop))
  }

  // ---------------------------------------------------------------- one connection

  /** What inputs call for is safe: an immediate acknowledgement is never for a type that has a
      source, and only records that name this connection are dispatched. */
  lemma InputTasksSafe(sv: Server, confirmed: seq<Confirmation>, c: nat, conn: Connection, n: nat, input: Input)
    requires conn.settings == sv.settings
    requires input.Event? ==> input.record.socketId == conn.uuid
    ensures forall task <- InputTasks(c, conn, n, input) :: TaskSafe(sv, confirmed, c, conn.uuid, task)
  {
    hide RecordFor, IsConfirmed;
    if input.Message? {
      var f := input.frame;
      EveryMessageIsClassified(conn.context, conn.codec, f.data, conn.uuid, conn.settings.transmitDecoded, f.now);
      MessageActsSafe(conn, f);
    }
  }

  lemma MessageActsSafe(conn: Connection, f: Frame)
    ensures forall act <- conn.Acts(f) ::
              && (act.Ack? ==> conn.Parse(f).record.txType == "" || conn.Parse(f).record.txType !in conn.settings.sources)
              && (act.Produce? ==> conn.Parse(f).record.socketId == conn.uuid)
  {
    hide RecordFor;
    EveryMessageIsClassified(conn.context, conn.codec, f.data, conn.uuid, conn.settings.transmitDecoded, f.now);
  }

  lemma PassingIsConfirmed(sv: Server, confirmed: seq<Confirmation>, rec: Rec, d: Dispatcher, attempt: Attempt)
    requires WellConfigured(sv) && PassesOn(sv, d, rec.value.txType) && Confirms(sv, rec, d, attempt)
    ensures IsConfirmed(sv, confirmed + [Confirmation(rec, d, attempt)], rec)
  {
    hide Confirms;
    var x := Confirmation(rec, d, attempt);
    assert ConfirmedBy(sv, (confirmed + [x])[|confirmed|], rec);
  }

  lemma GrownSocketSafe(sv: Server, confirmed: seq<Confirmation>, x: Confirmation, c: nat, k: Socket)
    requires SocketSafe(sv, confirmed, c, k)
    ensures SocketSafe(sv, confirmed + [x], c, k)
  {
    hide IsConfirmed;
    forall rec | IsConfirmed(sv, confirmed, rec)
      ensures IsConfirmed(sv, confirmed + [x], rec)
    {
      ConfirmedGrows(sv, confirmed, x, rec);
    }
  }

  lemma GivenSafe(sv: Server, confirmed: seq<Confirmation>, c: nat, k: Socket, input: Input)
    requires SocketSafe(sv, confirmed, c, k)
    requires input.Event? ==> input.record.socketId == k.uuid
    ensures SocketSafe(sv, confirmed, c, Given(sv, c, k, input))
  {
    hide InputTasks, TaskSafe, ResponseSafe;
    InputTasksSafe(sv, confirmed, c, ConnectionOf(sv, k), |k.inputs|, input);
  }

  /** A step of a connection keeps it safe, given what the step adds to the confirmations. */
  lemma OwnStepSafe(sv: Server, s: State, l: Label)
    requires WellConfigured(sv) && AtSocket(l) && Enabled(s, l) && EnabledAt(s.sockets[l.c], true, l)
    requires SocketSafe(sv, s.confirmed, l.c, s.sockets[l.c])
    ensures SocketSafe(sv, EffectAt(sv, s, l).confirmed, l.c, StepAt(sv, l.c, s.sockets[l.c], l))
  {
    hide InputTasks, IsConfirmed, Confirms, WellConfigured, PassesOn, Given;
    var c, k := l.c, s.sockets[l.c];
    if l.Receive? {
      GivenSafe(sv, s.confirmed, c, k, Message(l.frame));
    } else if l.Leave? {
      if l.event.Some? {
        GivenSafe(sv, s.confirmed, c, k.(phase := Gone), Event(l.event.value));
      }
    } else if l.Dispatch? {
      var task := k.todo[0];
      if ConfirmsNow(sv, task, l.attempt) {
        var x := Confirmation(task.rec, task.act.dispatcher, l.attempt);
        GrownSocketSafe(sv, s.confirmed, x, c, k);
        if PassesAfter(sv, task, l.attempt) {
          PassingIsConfirmed(sv, s.confirmed, task.rec, task.act.dispatcher, l.attempt);
        }
        assert TaskSafe(sv, s.confirmed + [x], c, k.uuid, task);
      }
    } else if l.Reply? {
      assert TaskSafe(sv, s.confirmed, c, k.uuid, k.todo[0]);
    }
  }

  // ---------------------------------------------------------------- the whole system

  lemma ConfirmedChanges(sv: Server, s: State, l: Label)
    requires Enabled(s, l)
    ensures var now := Next(sv, s, l).confirmed;
            now == s.confirmed || (|now| == |s.confirmed| + 1 && now == s.confirmed + [now[|s.confirmed|]])
  {
    hide StepAt, Announced, Enqueued, Confirms, ConfirmsNow;
  }

  /** What was safe before a step, and is not part of it, is safe after it. */
  lemma StaysSafe(sv: Server, s: State, l: Label, c: nat, k: Socket)
    requires Enabled(s, l) && SocketSafe(sv, s.confirmed, c, k)
    ensures SocketSafe(sv, Next(sv, s, l).confirmed, c, k)
  {
    hide Next, Enabled, SocketSafe;
    ConfirmedChanges(sv, s, l);
    var now := Next(sv, s, l).confirmed;
    if now != s.confirmed {
      GrownSocketSafe(sv, s.confirmed, now[|s.confirmed|], c, k);
    }
  }

  lemma StaysConfirmed(sv: Server, s: State, l: Label, rec: Rec)
    requires Enabled(s, l) && IsConfirmed(sv, s.confirmed, rec)
    ensures IsConfirmed(sv, Next(sv, s, l).confirmed, rec)
  {
    hide Next, Enabled, IsConfirmed;
    ConfirmedChanges(sv, s, l);
    var now := Next(sv, s, l).confirmed;
    if now != s.confirmed {
      ConfirmedGrows(sv, s.confirmed, now[|s.confirmed|], rec);
    }
  }

  lemma UuidsKept(sv: Server, s: State, l: Label)
    requires Enabled(s, l)
    ensures |s.sockets| <= |Next(sv, s, l).sockets|
    ensures forall c :: 0 <= c < |s.sockets| ==> Next(sv, s, l).sockets[c].uuid == s.sockets[c].uuid
  {
    hide InputTasks, PassesAfter, Confirms, ConfirmsNow;
  }

  lemma NewIsSafe(sv: Server, confirmed: seq<Confirmation>, c: nat, uuid: string, identity: RequestIdentity, event: Option<RecordValue>)
    requires IsEvent(NewSocket(uuid, identity), event)
    ensures SocketSafe(sv, confirmed, c, Announced(sv, c, NewSocket(uuid, identity), event))
  {
    hide Given;
    if event.Some? {
      GivenSafe(sv, confirmed, c, NewSocket(uuid, identity), Event(event.value));
    }
  }

  lemma SocketSafeStep(sv: Server, s: State, l: Label, c: nat)
    requires WellConfigured(sv) && Enabled(s, l) && LoopsSafe(sv, s) && c < |Next(sv, s, l).sockets|
    requires c < |s.sockets| ==> SocketSafe(sv, s.confirmed, c, s.sockets[c])
    ensures SocketSafe(sv, Next(sv, s, l).confirmed, c, Next(sv, s, l).sockets[c])
  {
    hide Next, StepAt, EnabledAt, Announced, Enqueued, SocketSafe, IsConfirmed, EffectAt, WellConfigured;
    SocketChanges(sv, s, l, c);
    var s' := Next(sv, s, l);
    if c < |s.sockets| {
      var k := s.sockets[c];
      StaysSafe(sv, s, l, c, k);
      if IsOwnStep(sv, c, k, s'.sockets[c], l) {
        OwnStepConfirms(sv, s, l);
        OwnStepSafe(sv, s, l);
      } else if IsDelivery(s, c, k, s'.sockets[c], l) {
        StaysConfirmed(sv, s, l, s.ackLoop.route.rec);
        EnqueuedSafe(sv, s'.confirmed, c, k, s.ackLoop.route.rec);
      }
    } else {
      NewIsSafe(sv, s'.confirmed, c, l.uuid, l.identity, l.event);
    }
  }

  lemma OwnStepConfirms(sv: Server, s: State, l: Label)
    requires AtSocket(l) && Enabled(s, l)
    ensures Next(sv, s, l).confirmed == EffectAt(sv, s, l).confirmed
  {
  }

  lemma EnqueuedSafe(sv: Server, confirmed: seq<Confirmation>, c: nat, k: Socket, rec: Rec)
    requires SocketSafe(sv, confirmed, c, k) && IsConfirmed(sv, confirmed, rec)
    ensures SocketSafe(sv, confirmed, c, Enqueued(k, Response(rec, true)))
  {
    hide IsConfirmed, TaskSafe;
  }

  /** Where the records outside the readers come from. */
  lemma LoopsChange(sv: Server, s: State, l: Label)
    requires Enabled(s, l)
    ensures var s' := Next(sv, s, l);
            var pushed := if l.PushAck? then Some(s.sockets[l.c].todo[0].rec) else None;
            && (forall rec :: rec in s'.kafkaPending ==>
                  rec in s.kafkaPending || (l.Dispatch? && rec == s.sockets[l.c].todo[0].rec))
            && (s'.kafkaLoop in {s.kafkaLoop, None}
                || (l.KafkaReport? && PassesOn(sv, Kafka, l.rec.value.txType) && s'.kafkaLoop == Some(l.rec)
                    && s'.confirmed == s.confirmed + [Confirmation(l.rec, Kafka, Plain(true))]))
            && InHand(s'.ackLoop) in {InHand(s.ackLoop), None, s.kafkaLoop, pushed}
  {
    hide StepAt, Announced, Enqueued, ConfirmsNow, PassesOn, SocketRegistry.After;
  }

  lemma LoopStaysSafe(sv: Server, s: State, l: Label, rec: Option<Rec>)
    requires Enabled(s, l) && LoopSafe(sv, s, rec)
    ensures LoopSafe(sv, Next(sv, s, l), rec)
  {
    hide Next, Enabled, IsConfirmed;
    UuidsKept(sv, s, l);
    if rec.Some? {
      StaysConfirmed(sv, s, l, rec.value);
    }
  }

  lemma LoopsSafeStep(sv: Server, s: State, l: Label)
    requires WellConfigured(sv) && Enabled(s, l) && LoopsSafe(sv, s)
    requires AtSocket(l) ==> SocketSafe(sv, s.confirmed, l.c, s.sockets[l.c])
    ensures LoopsSafe(sv, Next(sv, s, l))
  {
    hide Next, IsConfirmed, SocketSafe, WellConfigured, PassesOn, EnabledAt, SocketRegistry.After;
    HeadSafe(sv, s, l);
    LoopsChange(sv, s, l);
    UuidsKept(sv, s, l);
    LoopStaysSafe(sv, s, l, s.kafkaLoop);
    LoopStaysSafe(sv, s, l, InHand(s.ackLoop));
    LoopStaysSafe(sv, s, l, None);
    var s' := Next(sv, s, l);
    if l.PushAck? {
      LoopStaysSafe(sv, s, l, Some(s.sockets[l.c].todo[0].rec));
    }
    if l.KafkaReport? && PassesOn(sv, Kafka, l.rec.value.txType) {
      assert Known(s, l.rec);
      ReportConfirms(sv, l.rec);
      PassingIsConfirmed(sv, s.confirmed, l.rec, Kafka, Plain(true));
    }
  }

  lemma HeadSafe(sv: Server, s: State, l: Label)
    requires Enabled(s, l) && (l.Dispatch? || l.PushAck? ==> SocketSafe(sv, s.confirmed, l.c, s.sockets[l.c]))
    ensures l.Dispatch? || l.PushAck? ==> s.sockets[l.c].todo != []
    ensures l.Dispatch? ==> Known(s, s.sockets[l.c].todo[0].rec)
    ensures l.PushAck? ==> LoopSafe(sv, s, Some(s.sockets[l.c].todo[0].rec))
  {
    hide IsConfirmed;
    if l.Dispatch? || l.PushAck? {
      assert TaskSafe(sv, s.confirmed, l.c, s.sockets[l.c].uuid, s.sockets[l.c].todo[0]);
    }
  }

  lemma ReportConfirms(sv: Server, rec: Rec)
    ensures Confirms(sv, rec, Kafka, Plain(true))
  {
  }

  ghost predicate Safe(sv: Server, s: State) {
    && LoopsSafe(sv, s)
    && forall c :: 0 <= c < |s.sockets| ==> SocketSafe(sv, s.confirmed, c, s.sockets[c])
  }

  lemma {:induction false} SafeHolds(sv: Server, run: seq<Moment>)
    requires WellConfigured(sv) && IsRun(sv, run)
    ensures Safe(sv, After(run))
  {
    hide Next, Enabled, LoopsSafe, SocketSafe, WellConfigured;
    if run == [] {
      InitiallySafe(sv);
    } else {
      LastStep(sv, run);
      var before, l := run[..|run| - 1], run[|run| - 1].step;
      var s := After(before);
      SafeHolds(sv, before);
      EnabledSocket(s, l);
      LoopsSafeStep(sv, s, l);
      UuidsKept(sv, s, l);
      forall c: int | 0 <= c < |After(run).sockets|
        ensures SocketSafe(sv, After(run).confirmed, c, After(run).sockets[c])
      {
        SocketSafeStep(sv, s, l, c);
      }
    }
  }

  lemma InitiallySafe(sv: Server)
    ensures Safe(sv, INITIAL)
  {
  }

  lemma EnabledSocket(s: State, l: Label)
    requires Enabled(s, l)
    ensures AtSocket(l) ==> l.c < |s.sockets|
  {
  }

  /** A record that is confirmed has the step that confirmed it. */
  lemma ConfirmedIsVouched(sv: Server, run: seq<Moment>, rec: Rec) returns (j: nat)
    requires IsRun(sv, run) && IsConfirmed(sv, After(run).confirmed, rec)
    ensures DeliverySteps.VouchedAt(sv, run, j, rec, sv.settings.sources[rec.value.txType])
  {
    hide IsRun, After, Confirms, DeliverySteps.VouchedAt;
    var i :| 0 <= i < |After(run).confirmed| && ConfirmedBy(sv, After(run).confirmed[i], rec);
    j := DeliverySteps.ConfirmationHasStep(sv, run, i);
  }

  /** In every interleaving: when an acknowledgement is queued for a connection, and the type of
      its record has a configured source, then that source has confirmed that same record, and a step
      of the run is the word of the source: a delivery report without error, or an attempt of the
      producer on that record that succeeded. */
  lemma AcknowledgedIsConfirmed(sv: Server, run: seq<Moment>, t: nat, i: nat)
    requires WellConfigured(sv) && IsRun(sv, run) && t < |After(run).sockets|
    requires i < |After(run).sockets[t].queued|
    ensures var s := After(run);
            var r := s.sockets[t].queued[i];
            r.ok && r.rec.value.txType != "" && r.rec.value.txType in sv.settings.sources ==>
              var source := sv.settings.sources[r.rec.value.txType];
              && (exists j :: 0 <= j < |s.confirmed| && s.confirmed[j].rec == r.rec && s.confirmed[j].dispatcher == source
                              && Confirms(sv, r.rec, source, s.confirmed[j].attempt))
              && exists j: nat :: DeliverySteps.VouchedAt(sv, run, j, r.rec, source)
  {
    hide Next, Enabled, LoopsSafe, WellConfigured, Confirms, DeliverySteps.VouchedAt;
    SafeHolds(sv, run);
    var s := After(run);
    var r := s.sockets[t].queued[i];
    assert ResponseSafe(sv, s.confirmed, r);
    if r.ok && NeedsProof(sv, r.rec) {
      var j :| 0 <= j < |s.confirmed| && ConfirmedBy(sv, s.confirmed[j], r.rec);
      var step := ConfirmedIsVouched(sv, run, r.rec);
    }
  }
}
