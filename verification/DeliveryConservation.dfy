/** Confirmations of reliable records are neither lost nor multiplied on their way to a connection. */
module DeliveryConservation {
  import opened GoTypes
  import opened Dispatchers
  import opened Delivery
  import DeliveryQueues
  import SocketRegistry

  // Everything is counted either for one record or, if `x` is None, for all records together.

  function One(x: Option<Rec>, rec: Rec): (n: nat) {
    if x.None? || x.value == rec then 1 else 0
  }

  /** How many confirmations producers pass on. */
  ghost function Passed(sv: Server, confirmed: seq<Confirmation>, x: Option<Rec>): (n: nat) {
    if confirmed == [] then 0
    else Passed(sv, confirmed[..|confirmed| - 1], x) + PassedBy(sv, confirmed[|confirmed| - 1], x)
  }

  ghost function PassedBy(sv: Server, y: Confirmation, x: Option<Rec>): (n: nat) {
    if PassesOn(sv, y.dispatcher, y.rec.value.txType) then One(x, y.rec) else 0
  }

  /** How many readers are about to pass on. */
  ghost function Held(sockets: seq<Socket>, x: Option<Rec>): (n: nat) {
    if sockets == [] then 0
    else Held(sockets[..|sockets| - 1], x) + HeldBy(sockets[|sockets| - 1], x)
  }

  ghost function HeldBy(k: Socket, x: Option<Rec>): (n: nat) {
    if k.todo != [] && k.todo[0].Push? then One(x, k.todo[0].rec) else 0
  }

  /** The confirmations whose fate is open: with a reader, with the Kafka loop, or just taken from
      the channel. */
  ghost function InFlight(s: State, x: Option<Rec>): (n: nat) {
    Held(s.sockets, x) + (if s.kafkaLoop.Some? then One(x, s.kafkaLoop.value) else 0)
    + (if s.ackLoop.Holding? then One(x, s.ackLoop.rec) else 0)
  }

  ghost function Routed(routes: seq<Route>, x: Option<Rec>): (n: nat) {
    if routes == [] then 0 else Routed(routes[..|routes| - 1], x) + One(x, routes[|routes| - 1].rec)
  }

  ghost function Missed(missed: seq<Rec>, x: Option<Rec>): (n: nat) {
    if missed == [] then 0 else Missed(missed[..|missed| - 1], x) + One(x, missed[|missed| - 1])
  }

  lemma PassedGrows(sv: Server, confirmed: seq<Confirmation>, y: Confirmation, x: Option<Rec>)
    ensures Passed(sv, confirmed + [y], x) == Passed(sv, confirmed, x) + PassedBy(sv, y, x)
  {
    assert (confirmed + [y])[..|confirmed|] == confirmed;
  }

  lemma RoutedGrows(routes: seq<Route>, y: Route, x: Option<Rec>)
    ensures Routed(routes + [y], x) == Routed(routes, x) + One(x, y.rec)
  {
    assert (routes + [y])[..|routes|] == routes;
  }

  lemma MissedGrows(missed: seq<Rec>, y: Rec, x: Option<Rec>)
    ensures Missed(missed + [y], x) == Missed(missed, x) + One(x, y)
  {
    assert (missed + [y])[..|missed|] == missed;
  }

  lemma HeldGrows(sockets: seq<Socket>, k: Socket, x: Option<Rec>)
    ensures Held(sockets + [k], x) == Held(sockets, x) + HeldBy(k, x)
  {
    assert (sockets + [k])[..|sockets|] == sockets;
  }

  lemma {:induction false} HeldUpdate(sockets: seq<Socket>, c: nat, k: Socket, x: Option<Rec>)
    requires c < |sockets|
    ensures Held(sockets[c := k], x) + HeldBy(sockets[c], x) == Held(sockets, x) + HeldBy(k, x)
  {
    hide HeldBy;
    var n := |sockets| - 1;
    if c == n {
      assert sockets[c := k][..n] == sockets[..n];
    } else {
      assert sockets[c := k][..n] == sockets[..n][c := k];
      HeldUpdate(sockets[..n], c, k, x);
    }
  }

  /** The totals are the lengths of the histories. */
  lemma {:induction false} AllRouted(routes: seq<Route>)
    ensures Routed(routes, None) == |routes|
  {
    if routes != [] {
      AllRouted(routes[..|routes| - 1]);
    }
  }

  lemma {:induction false} AllMissed(missed: seq<Rec>)
    ensures Missed(missed, None) == |missed|
  {
    if missed != [] {
      AllMissed(missed[..|missed| - 1]);
    }
  }

  // ---------------------------------------------------------------- step by step

  ghost predicate Balance(sv: Server, s: State, x: Option<Rec>) {
    Passed(sv, s.confirmed, x) == Routed(s.routed, x) + Missed(s.missed, x) + InFlight(s, x)
  }

  /** Only the first task of a connection passes on a confirmation. */
  ghost predicate PushFirst(k: Socket) {
    forall i :: 1 <= i < |k.todo| ==> k.todo[i].Do?
  }

  /** How a step of a connection changes what it holds. */
  lemma HoldsAfter(sv: Server, c: nat, k: Socket, l: Label, x: Option<Rec>)
    requires AtSocket(l) && EnabledAt(k, true, l) && PushFirst(k)
    ensures HeldBy(StepAt(sv, c, k, l), x) ==
            if l.PushAck? then 0
            else if l.Dispatch? then if PassesAfter(sv, k.todo[0], l.attempt) then One(x, k.todo[0].rec) else 0
            else HeldBy(k, x)
    ensures l.Dispatch? ==> HeldBy(k, x) == 0
    ensures l.PushAck? ==> HeldBy(k, x) == One(x, k.todo[0].rec)
  {
    hide PassesAfter, One, TaskCrashes;
    if l.Dispatch? && TaskCrashes(k.todo[0]) {
      PanicPassesNothing(sv, k.todo[0], l.attempt);
    }
  }

  /** What a step of a connection does outside of it, in numbers. */
  lemma EffectCounts(sv: Server, s: State, l: Label, x: Option<Rec>)
    requires AtSocket(l) && Enabled(s, l)
    ensures var e := EffectAt(sv, s, l);
            && e.kafkaLoop == s.kafkaLoop && e.routed == s.routed && e.missed == s.missed
            && (if l.PushAck? then s.ackLoop.Waiting? && e.ackLoop == Holding(s.sockets[l.c].todo[0].rec) else e.ackLoop == s.ackLoop)
            && Passed(sv, e.confirmed, x) == Passed(sv, s.confirmed, x)
               + if l.Dispatch? && PassesAfter(sv, s.sockets[l.c].todo[0], l.attempt) then One(x, s.sockets[l.c].todo[0].rec) else 0
  {
    hide Passed, One, Confirms, PassesOn;
    if l.Dispatch? {
      var task := s.sockets[l.c].todo[0];
      PassedGrows(sv, s.confirmed, Confirmation(task.rec, task.act.dispatcher, l.attempt), x);
    }
  }

  lemma SocketStep(sv: Server, s: State, l: Label, x: Option<Rec>)
    requires AtSocket(l) && Enabled(s, l) && PushFirst(s.sockets[l.c]) && Balance(sv, s, x)
    ensures Balance(sv, Next(sv, s, l), x)
  {
    hide Passed, Routed, Missed, Held, HeldBy, One, StepAt, EffectAt, PassesAfter;
    var k := s.sockets[l.c];
    WhileWaiting(s, l);
    HeldUpdate(s.sockets, l.c, StepAt(sv, l.c, k, l), x);
    HoldsAfter(sv, l.c, k, l, x);
    EffectCounts(sv, s, l, x);
  }

  lemma WhileWaiting(s: State, l: Label)
    requires AtSocket(l) && Enabled(s, l)
    ensures EnabledAt(s.sockets[l.c], true, l)
  {
  }

  lemma ConnectStep(sv: Server, s: State, l: Label, x: Option<Rec>)
    requires l.Connect? && Enabled(s, l) && Balance(sv, s, x)
    ensures Balance(sv, Next(sv, s, l), x)
  {
    hide Passed, Routed, Missed, Held, One;
    HeldGrows(s.sockets, Announced(sv, |s.sockets|, NewSocket(l.uuid, l.identity), l.event), x);
  }

  lemma LoopStep(sv: Server, s: State, l: Label, x: Option<Rec>)
    requires (l.KafkaReport? || l.KafkaPush? || l.Lookup?) && Enabled(s, l) && Balance(sv, s, x)
    ensures Balance(sv, Next(sv, s, l), x)
  {
    hide Passed, Routed, Missed, Held, One, SocketRegistry.After;
    if l.KafkaReport? {
      PassedGrows(sv, s.confirmed, Confirmation(l.rec, Kafka, Plain(true)), x);
    } else if l.Lookup? {
      var found := SocketRegistry.Find(Registered(s), s.ackLoop.rec.value.socketId);
      MissedGrows(s.missed, s.ackLoop.rec, x);
      if found.Some? {
        RoutedGrows(s.routed, Route(s.ackLoop.rec, found.value.id, |s.sockets|), x);
      }
    }
  }

  lemma DeliverStep(sv: Server, s: State, l: Label, x: Option<Rec>)
    requires l.Deliver? && Enabled(s, l) && Balance(sv, s, x)
    ensures Balance(sv, Next(sv, s, l), x)
  {
    hide Passed, Routed, Missed, Held, One;
    var t := s.ackLoop.route.target;
    HeldUpdate(s.sockets, t, Enqueued(s.sockets[t], Response(s.ackLoop.route.rec, true)), x);
  }

  lemma {:induction false} BalanceHolds(sv: Server, run: seq<Moment>, x: Option<Rec>)
    requires IsRun(sv, run)
    ensures Balance(sv, After(run), x)
  {
    hide Next, Enabled, Balance, DeliveryQueues.TasksOf;
    if run == [] {
      NothingYet(sv, x);
    } else {
      LastStep(sv, run);
      var before, l := run[..|run| - 1], run[|run| - 1].step;
      var s := After(before);
      BalanceHolds(sv, before, x);
      if AtSocket(l) {
        AtOneSocket(s, l);
        DeliveryQueues.AccountsHold(sv, before, l.c);
        SocketStep(sv, s, l, x);
      } else if l.Connect? {
        ConnectStep(sv, s, l, x);
      } else if l.Deliver? {
        DeliverStep(sv, s, l, x);
      } else {
        LoopStep(sv, s, l, x);
      }
    }
  }

  lemma AtOneSocket(s: State, l: Label)
    requires AtSocket(l) && Enabled(s, l)
    ensures l.c < |s.sockets|
  {
  }

  lemma NothingYet(sv: Server, x: Option<Rec>)
    ensures Balance(sv, INITIAL, x)
  {
  }

  /** The counters and the delivery in progress. */
  ghost predicate Counted(s: State) {
    && s.ackCount == |s.routed| && s.missCount == |s.missed|
    && s.routed == s.delivered + if s.ackLoop.Sending? then [s.ackLoop.route] else []
  }

  lemma CountedStep(sv: Server, s: State, l: Label)
    requires Enabled(s, l) && Counted(s)
    ensures Counted(Next(sv, s, l))
  {
    hide StepAt, Announced, Enqueued, ConfirmsNow, SocketRegistry.After;
  }

  lemma {:induction false} CountedHolds(sv: Server, run: seq<Moment>)
    requires IsRun(sv, run)
    ensures Counted(After(run))
  {
    hide Next, Enabled;
    if run != [] {
      LastStep(sv, run);
      CountedHolds(sv, run[..|run| - 1]);
      CountedStep(sv, After(run[..|run| - 1]), run[|run| - 1].step);
    }
  }

  /** In every run, for every record: the confirmations passed on for it are its acknowledgements
      delivered to a connection, one being delivered, its misses, and those still in flight. In
      total, each confirmation drained from the channel has bumped exactly one of the counters. */
  lemma ConfirmationsConserved(sv: Server, run: seq<Moment>, rec: Rec)
    requires IsRun(sv, run)
    ensures var s := After(run);
            Passed(sv, s.confirmed, Some(rec)) ==
            Routed(s.delivered, Some(rec)) + Missed(s.missed, Some(rec)) + InFlight(s, Some(rec))
            + if s.ackLoop.Sending? && s.ackLoop.route.rec == rec then 1 else 0
    ensures var s := After(run);
            && Passed(sv, s.confirmed, None) == s.ackCount + s.missCount + InFlight(s, None)
            && s.ackCount == |s.delivered| + (if s.ackLoop.Sending? then 1 else 0) && s.missCount == |s.missed|
  {
    hide Next, Enabled, Passed, Routed, Missed, InFlight;
    var s := After(run);
    BalanceHolds(sv, run, Some(rec));
    BalanceHolds(sv, run, None);
    CountedHolds(sv, run);
    AllRouted(s.routed);
    AllMissed(s.missed);
    if s.ackLoop.Sending? {
      RoutedGrows(s.delivered, s.ackLoop.route, Some(rec));
    } else {
      assert s.routed == s.delivered;
    }
  }
}
