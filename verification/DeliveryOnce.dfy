/** A record is acknowledged through its data store at most as often as that is listed for its type. */
module DeliveryOnce {
  import opened GoTypes
  import opened Dispatchers
  import opened Serializer
  import opened SocketManagers
  import opened Delivery
  import DeliveryConservation
  import DeliverySafety
  import DeliverySteps
  import SocketRegistry
  import ReliableAckConfig

  /** How often a producer is listed for a type. */
  function Listed(sv: Server, txType: string, d: Dispatcher): (n: nat) {
    multiset(Rule(sv.settings, txType))[d]
  }

  /** How often a record is still to be handed to a producer. */
  function Pending(todo: seq<Task>, rec: Rec, d: Dispatcher): (n: nat) {
    if todo == [] then 0 else (if todo[0] == Do(rec, Produce(d)) then 1 else 0) + Pending(todo[1..], rec, d)
  }

  /** How often a producer has confirmed a record. */
  ghost function Confirmed(confirmed: seq<Confirmation>, rec: Rec, d: Dispatcher): (n: nat) {
    if confirmed == [] then 0
    else Confirmed(confirmed[..|confirmed| - 1], rec, d) + ConfirmedBy(confirmed[|confirmed| - 1], rec, d)
  }

  ghost function ConfirmedBy(x: Confirmation, rec: Rec, d: Dispatcher): (n: nat) {
    if x.rec == rec && x.dispatcher == d then 1 else 0
  }

  lemma ConfirmedGrows(confirmed: seq<Confirmation>, x: Confirmation, rec: Rec, d: Dispatcher)
    ensures Confirmed(confirmed + [x], rec, d) == Confirmed(confirmed, rec, d) + ConfirmedBy(x, rec, d)
  {
    assert (confirmed + [x])[..|confirmed|] == confirmed;
  }

  lemma {:induction false} PendingJoins(a: seq<Task>, b: seq<Task>, rec: Rec, d: Dispatcher)
    ensures Pending(a + b, rec, d) == Pending(a, rec, d) + Pending(b, rec, d)
  {
    if a == [] {
      assert a + b == b;
    } else {
      assert (a + b)[1..] == a[1..] + b;
      PendingJoins(a[1..], b, rec, d);
    }
  }

  lemma {:induction false} TasksPending(mine: Rec, acts: seq<Act>, rec: Rec, d: Dispatcher)
    ensures Pending(Tasks(mine, acts), rec, d) == if mine == rec then Count(acts, Produce(d)) else 0
  {
    if acts != [] {
      assert Tasks(mine, acts)[1..] == Tasks(mine, acts[1..]);
      TasksPending(mine, acts[1..], rec, d);
      assert acts == [acts[0]] + acts[1..];
    }
  }

  /** An input is dispatched to a producer as often as that is listed for its type, or not at all. */
  lemma ActsListed(conn: Connection, input: Input, d: Dispatcher)
    ensures Count(ActsFor(conn, input), Produce(d)) <= multiset(Rule(conn.settings, Parsed(conn, input).txType))[d]
  {
    hide RecordFor, Dispatches;
    DispatchesListed(conn.settings, Parsed(conn, input).txType, d);
  }

  lemma DispatchesListed(settings: Settings, txType: string, d: Dispatcher)
    ensures Count(Dispatches(settings.rules, txType), Produce(d)) == multiset(Rule(settings, txType))[d]
  {
    GivenToListed(Rule(settings, txType), d);
    assert Dispatches(settings.rules, txType) == GivenTo(Rule(settings, txType));
  }

  function GivenTo(rule: seq<Dispatcher>): (acts: seq<Act>) {
    seq(|rule|, i requires 0 <= i < |rule| => Produce(rule[i]))
  }

  lemma {:induction false} GivenToListed(rule: seq<Dispatcher>, d: Dispatcher)
    ensures Count(GivenTo(rule), Produce(d)) == multiset(rule)[d]
  {
    if rule != [] {
      GivenToListed(rule[1..], d);
      assert rule == [rule[0]] + rule[1..];
      assert GivenTo(rule) == [Produce(rule[0])] + GivenTo(rule[1..]);
    }
  }

  // ---------------------------------------------------------------- step by step

  /** The chances left for producer `d` to confirm the record, and the confirmations it gave. */
  ghost function Uses(s: State, rec: Rec, d: Dispatcher): (n: nat) {
    Confirmed(s.confirmed, rec, d)
    + (if d == Kafka then s.kafkaPending[rec] else 0)
    + (if rec.owner < |s.sockets| then Pending(s.sockets[rec.owner].todo, rec, d) else 0)
  }

  /** At most as many as the producer is listed, and none before the record exists. */
  ghost predicate UsedAsListed(sv: Server, s: State, rec: Rec, d: Dispatcher) {
    Uses(s, rec, d) <= if rec.owner < |s.sockets| && rec.number < |s.sockets[rec.owner].inputs| then Listed(sv, rec.value.txType, d) else 0
  }

  lemma GivenPending(sv: Server, c: nat, k: Socket, input: Input, rec: Rec, d: Dispatcher)
    ensures Pending(Given(sv, c, k, input).todo, rec, d)
         <= Pending(k.todo, rec, d) + (if rec.owner == c && rec.number == |k.inputs| then Listed(sv, rec.value.txType, d) else 0)
    ensures |Given(sv, c, k, input).inputs| == |k.inputs| + 1
  {
    var conn := ConnectionOf(sv, k);
    var mine := Rec(c, |k.inputs|, Parsed(conn, input));
    ActsListed(conn, input, d);
    TasksPending(mine, ActsFor(conn, input), rec, d);
    PendingJoins(k.todo, InputTasks(c, conn, |k.inputs|, input), rec, d);
  }

  /** What a step of a connection does to what is pending there. */
  lemma PendingAfter(sv: Server, c: nat, k: Socket, l: Label, rec: Rec, d: Dispatcher)
    requires AtSocket(l) && EnabledAt(k, true, l)
    ensures var k' := StepAt(sv, c, k, l);
            && |k.inputs| <= |k'.inputs|
            && Pending(k'.todo, rec, d) + (if l.Dispatch? && k.todo[0] == Do(rec, Produce(d)) then 1 else 0)
               <= Pending(k.todo, rec, d) + (if rec.owner == c && |k.inputs| <= rec.number < |k'.inputs| then Listed(sv, rec.value.txType, d) else 0)
  {
    hide Parsed, InputTasks, ActsFor, PassesAfter, Given, Tried;
    if l.Receive? {
      GivenPending(sv, c, k, Message(l.frame), rec, d);
    } else if l.Leave? && l.event.Some? {
      GivenPending(sv, c, k.(phase := Gone), Event(l.event.value), rec, d);
    } else if l.Dispatch? {
      TriedPending(k, PassesAfter(sv, k.todo[0], l.attempt), rec, d);
    }
  }

  lemma TriedPending(k: Socket, pass: bool, rec: Rec, d: Dispatcher)
    requires k.todo != [] && k.todo[0].Do?
    ensures Tried(k, pass).inputs == k.inputs
    ensures Pending(Tried(k, pass).todo, rec, d) + (if k.todo[0] == Do(rec, Produce(d)) then 1 else 0) == Pending(k.todo, rec, d)
  {
    var rest := k.todo[1..];
    assert ([Push(k.todo[0].rec)] + rest)[1..] == rest;
    assert [] + rest == rest;
  }

  /** What a step of a connection does to what is confirmed or in Kafka's hands. */
  lemma EffectUses(sv: Server, s: State, l: Label, rec: Rec, d: Dispatcher)
    requires AtSocket(l) && Enabled(s, l)
    ensures var e := EffectAt(sv, s, l);
            Confirmed(e.confirmed, rec, d) + (if d == Kafka then e.kafkaPending[rec] else 0)
            <= Confirmed(s.confirmed, rec, d) + (if d == Kafka then s.kafkaPending[rec] else 0)
               + if l.Dispatch? && s.sockets[l.c].todo[0] == Do(rec, Produce(d)) then 1 else 0
  {
    hide Confirmed, Confirms;
    if l.Dispatch? {
      var task := s.sockets[l.c].todo[0];
      ConfirmedGrows(s.confirmed, Confirmation(task.rec, task.act.dispatcher, l.attempt), rec, d);
    }
  }

  lemma SocketStep(sv: Server, s: State, l: Label, rec: Rec, d: Dispatcher)
    requires AtSocket(l) && Enabled(s, l) && UsedAsListed(sv, s, rec, d)
    requires l.Dispatch? ==> s.sockets[l.c].todo[0].rec.owner == l.c
    ensures UsedAsListed(sv, Next(sv, s, l), rec, d)
  {
    hide Confirmed, Pending, StepAt, EffectAt;
    DeliveryConservation.WhileWaiting(s, l);
    PendingAfter(sv, l.c, s.sockets[l.c], l, rec, d);
    EffectUses(sv, s, l, rec, d);
  }

  lemma ReportStep(sv: Server, s: State, l: Label, rec: Rec, d: Dispatcher)
    requires l.KafkaReport? && Enabled(s, l) && UsedAsListed(sv, s, rec, d)
    ensures UsedAsListed(sv, Next(sv, s, l), rec, d)
  {
    hide Confirmed, Pending;
    ConfirmedGrows(s.confirmed, Confirmation(l.rec, Kafka, Plain(true)), rec, d);
  }

  lemma ConnectStep(sv: Server, s: State, l: Label, rec: Rec, d: Dispatcher)
    requires l.Connect? && Enabled(s, l) && UsedAsListed(sv, s, rec, d)
    ensures UsedAsListed(sv, Next(sv, s, l), rec, d)
  {
    hide Confirmed, Pending, InputTasks;
    NewPending(rec, d);
    if l.event.Some? {
      GivenPending(sv, |s.sockets|, NewSocket(l.uuid, l.identity), Event(l.event.value), rec, d);
    }
  }

  lemma LoopStep(sv: Server, s: State, l: Label, rec: Rec, d: Dispatcher)
    requires (l.KafkaPush? || l.Lookup? || l.Deliver?) && Enabled(s, l) && UsedAsListed(sv, s, rec, d)
    ensures UsedAsListed(sv, Next(sv, s, l), rec, d)
  {
    hide Confirmed, Pending, SocketRegistry.After;
  }

  lemma NewPending(rec: Rec, d: Dispatcher)
    ensures Pending([], rec, d) == 0
  {
  }

  lemma {:induction false} UsedAsListedHolds(sv: Server, run: seq<Moment>, rec: Rec, d: Dispatcher)
    requires WellConfigured(sv) && IsRun(sv, run)
    ensures UsedAsListed(sv, After(run), rec, d)
  {
    hide Next, Enabled, UsedAsListed, WellConfigured, DeliverySafety.IsConfirmed;
    if run == [] {
      NothingUsed(sv, rec, d);
    } else {
      LastStep(sv, run);
      var before, l := run[..|run| - 1], run[|run| - 1].step;
      var s := After(before);
      UsedAsListedHolds(sv, before, rec, d);
      if AtSocket(l) {
        DeliverySafety.SafeHolds(sv, before);
        OwnTask(sv, s, l);
        SocketStep(sv, s, l, rec, d);
      } else {
        if l.Connect? {
          ConnectStep(sv, s, l, rec, d);
        } else if l.KafkaReport? {
          ReportStep(sv, s, l, rec, d);
        } else {
          LoopStep(sv, s, l, rec, d);
        }
      }
    }
  }

  lemma NothingUsed(sv: Server, rec: Rec, d: Dispatcher)
    ensures UsedAsListed(sv, INITIAL, rec, d)
  {
  }

  lemma OwnTask(sv: Server, s: State, l: Label)
    requires AtSocket(l) && Enabled(s, l) && DeliverySafety.Safe(sv, s)
    ensures l.Dispatch? ==> s.sockets[l.c].todo != [] && s.sockets[l.c].todo[0].rec.owner == l.c
  {
    hide DeliverySafety.IsConfirmed;
    assert DeliverySafety.SocketSafe(sv, s.confirmed, l.c, s.sockets[l.c]);
    if l.Dispatch? {
      assert DeliverySafety.TaskSafe(sv, s.confirmed, l.c, s.sockets[l.c].uuid, s.sockets[l.c].todo[0]);
    }
  }

  // ---------------------------------------------------------------- Kafka's word

  /** Kafka has confirmed a record as often as it reported that the record was delivered. */
  lemma {:induction false} ReportsConfirm(sv: Server, run: seq<Moment>, rec: Rec)
    requires IsRun(sv, run)
    ensures Confirmed(After(run).confirmed, rec, Kafka) == DeliverySteps.Taken(run, KafkaReport(rec, true))
  {
    hide Next, Enabled, Confirmed;
    if run == [] {
      NothingConfirmed(rec, Kafka);
    } else {
      LastStep(sv, run);
      var before, l := run[..|run| - 1], run[|run| - 1].step;
      ReportsConfirm(sv, before, rec);
      DeliverySteps.ConfirmationsStep(sv, After(before), l);
      ReportConfirms(sv, After(before), l, rec);
    }
  }

  lemma NothingConfirmed(rec: Rec, d: Dispatcher)
    ensures Confirmed([], rec, d) == 0
  {
  }

  lemma ReportConfirms(sv: Server, s: State, l: Label, rec: Rec)
    ensures Confirmed(s.confirmed + DeliverySteps.ConfirmationsAt(sv, s, l), rec, Kafka) ==
            Confirmed(s.confirmed, rec, Kafka) + if l == KafkaReport(rec, true) then 1 else 0
  {
    hide Confirmed, DeliverySteps.Succeeds;
    var xs := DeliverySteps.ConfirmationsAt(sv, s, l);
    if xs == [] {
      assert s.confirmed + xs == s.confirmed;
    } else {
      ConfirmedGrows(s.confirmed, xs[0], rec, Kafka);
    }
  }

  // ---------------------------------------------------------------- the result

  /** Only the confirmations of the type's own source are passed on. */
  lemma {:induction false} PassedAreSourced(sv: Server, confirmed: seq<Confirmation>, rec: Rec)
    requires WellConfigured(sv)
    ensures DeliveryConservation.Passed(sv, confirmed, Some(rec)) <=
            if rec.value.txType in sv.settings.sources then Confirmed(confirmed, rec, sv.settings.sources[rec.value.txType]) else 0
  {
    if confirmed != [] {
      PassedAreSourced(sv, confirmed[..|confirmed| - 1], rec);
      var x := confirmed[|confirmed| - 1];
      ReliableAckConfig.OneSourcePerType(sv.settings.rules, sv.settings.sources, x.rec.value.txType, x.dispatcher);
    }
  }

  /** The acknowledgements of a record: delivered, on their way, missed, or about to be looked up. */
  ghost function Acknowledgements(s: State, rec: Rec): (n: nat) {
    DeliveryConservation.Routed(s.routed, Some(rec)) + DeliveryConservation.Missed(s.missed, Some(rec))
    + DeliveryConservation.InFlight(s, Some(rec))
  }

  /** In every run, a record is confirmed by a producer at most as often as that is listed for its
      type, and has at most as many acknowledgements as the source of its type is listed: none, if
      the type has no source. */
  lemma AcknowledgedAsListed(sv: Server, run: seq<Moment>, rec: Rec, d: Dispatcher)
    requires WellConfigured(sv) && IsRun(sv, run)
    ensures Confirmed(After(run).confirmed, rec, d) <= Listed(sv, rec.value.txType, d)
    ensures Acknowledgements(After(run), rec) <=
            if rec.value.txType in sv.settings.sources then Listed(sv, rec.value.txType, sv.settings.sources[rec.value.txType]) else 0
  {
    hide IsRun, After, WellConfigured, Confirmed, Listed, DeliveryConservation.Passed, DeliveryConservation.Routed,
      DeliveryConservation.Missed, DeliveryConservation.InFlight;
    var s := After(run);
    UsedAsListedHolds(sv, run, rec, d);
    if rec.value.txType in sv.settings.sources {
      UsedAsListedHolds(sv, run, rec, sv.settings.sources[rec.value.txType]);
    }
    PassedAreSourced(sv, s.confirmed, rec);
    DeliveryConservation.BalanceHolds(sv, run, Some(rec));
  }

  /** In every run, if the source of its type is not listed twice for that type, a record has at most
      one acknowledgement. */
  lemma AcknowledgedAtMostOnce(sv: Server, run: seq<Moment>, rec: Rec)
    requires WellConfigured(sv) && IsRun(sv, run) && rec.value.txType in sv.settings.sources
    requires var rule, source := Rule(sv.settings, rec.value.txType), sv.settings.sources[rec.value.txType];
             forall i, j :: 0 <= i < j < |rule| ==> !(rule[i] == source && rule[j] == source)
    ensures Acknowledgements(After(run), rec) <= 1
  {
    var source := sv.settings.sources[rec.value.txType];
    AcknowledgedAsListed(sv, run, rec, source);
    ListedOnce(Rule(sv.settings, rec.value.txType), source);
  }

  lemma {:induction false} ListedOnce(rule: seq<Dispatcher>, d: Dispatcher)
    requires forall i, j :: 0 <= i < j < |rule| ==> !(rule[i] == d && rule[j] == d)
    ensures multiset(rule)[d] <= 1
  {
    if rule != [] {
      assert rule == [rule[0]] + rule[1..];
      if rule[0] == d {
        assert forall j :: 0 <= j < |rule| - 1 ==> rule[1..][j] != d;
        assert d !in rule[1..];
      } else {
        ListedOnce(rule[1..], d);
      }
    }
  }
}
