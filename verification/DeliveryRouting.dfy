/** Where reliable acknowledgements end up, and what the registry knows in every run. */
module DeliveryRouting {
  import opened GoTypes
  import opened Delivery
  import DeliverySafety
  import SocketRegistry

  // ---------------------------------------------------------------- the calls to the registry

  ghost predicate IsHandle(s: State, h: SocketRegistry.Socket) {
    h.id < |s.sockets| && h == Handle(h.id, s.sockets[h.id])
  }

  ghost predicate IsLive(s: State, h: SocketRegistry.Socket) {
    IsHandle(s, h) && !s.sockets[h.id].phase.Gone?
  }

  /** No connection made after `c`, up to `n`, goes by this UUID. */
  ghost predicate NoneLater(s: State, uuid: string, c: int, n: int) {
    forall d :: c < d < n && 0 <= d < |s.sockets| ==> s.sockets[d].uuid != uuid
  }

  ghost predicate Latest(s: State, uuid: string) {
    var last := SocketRegistry.LastOn(s.calls, uuid);
    last.Some? && last.value.Register? ==> NoneLater(s, uuid, last.value.socket.id, |s.sockets|)
  }

  ghost predicate HandlesFit(s: State) {
    forall i :: 0 <= i < |s.calls| ==> IsHandle(s, s.calls[i].socket)
  }

  ghost predicate LiveFit(s: State) {
    forall h :: h in SocketRegistry.Live(s.calls) <==> IsLive(s, h)
  }

  ghost predicate CallsFit(s: State) {
    && SocketRegistry.Lifecycle(s.calls)
    && HandlesFit(s)
    && LiveFit(s)
    && (forall uuid :: Latest(s, uuid))
    && (forall c :: 0 <= c < |s.sockets| ==> WasRegistered(s, c))
  }

  ghost predicate WasRegistered(s: State, c: int)
    requires 0 <= c < |s.sockets|
  {
    SocketRegistry.Register(Handle(c, s.sockets[c])) in s.calls
  }

  /** A connection keeps its UUID, and is gone afterwards if it was, or if it leaves. */
  ghost predicate Becomes(k: Delivery.Socket, k': Delivery.Socket, leaves: bool) {
    k'.uuid == k.uuid && (k'.phase.Gone? <==> k.phase.Gone? || leaves)
  }

  lemma OneBecomes(sv: Server, s: State, l: Label, c: nat)
    requires Enabled(s, l) && c < |s.sockets|
    ensures c < |Next(sv, s, l).sockets| && Becomes(s.sockets[c], Next(sv, s, l).sockets[c], l.Leave? && l.c == c)
  {
    hide InputTasks, PassesAfter, Next;
    CallsMade(sv, s, l);
    SocketChanges(sv, s, l, c);
    if l.Leave? {
      OwnSocket(sv, s, l);
    }
  }

  lemma OwnSocket(sv: Server, s: State, l: Label)
    requires AtSocket(l) && Enabled(s, l)
    ensures IsOwnStep(sv, l.c, s.sockets[l.c], Next(sv, s, l).sockets[l.c], l)
  {
    hide StepAt, ConfirmsNow;
  }

  lemma CallsMade(sv: Server, s: State, l: Label)
    requires Enabled(s, l)
    ensures var s' := Next(sv, s, l);
            && |s'.sockets| == |s.sockets| + (if l.Connect? then 1 else 0)
            && (if l.Connect? then
                  && s'.calls == s.calls + [SocketRegistry.Register(SocketRegistry.Socket(|s.sockets|, l.uuid))]
                  && s'.sockets[|s.sockets|].uuid == l.uuid && !s'.sockets[|s.sockets|].phase.Gone?
                else if l.Leave? then
                  && l.c < |s.sockets| && !s.sockets[l.c].phase.Gone?
                  && s'.calls == s.calls + [SocketRegistry.Deregister(Handle(l.c, s.sockets[l.c]))]
                else s'.calls == s.calls)
  {
    hide StepAt, InputTasks, Enqueued, ConfirmsNow, Confirms, SocketRegistry.After;
  }

  /** A step either leaves the calls alone and nobody comes or goes, or somebody does just that. */
  lemma CallsChange(sv: Server, s: State, l: Label)
    requires Enabled(s, l)
    ensures var s' := Next(sv, s, l);
            && |s'.sockets| == |s.sockets| + (if l.Connect? then 1 else 0)
            && (forall c :: 0 <= c < |s.sockets| ==> Becomes(s.sockets[c], s'.sockets[c], l.Leave? && l.c == c))
            && (if l.Connect? then
                  && s'.calls == s.calls + [SocketRegistry.Register(SocketRegistry.Socket(|s.sockets|, l.uuid))]
                  && s'.sockets[|s.sockets|].uuid == l.uuid && !s'.sockets[|s.sockets|].phase.Gone?
                else if l.Leave? then
                  && l.c < |s.sockets| && !s.sockets[l.c].phase.Gone?
                  && s'.calls == s.calls + [SocketRegistry.Deregister(Handle(l.c, s.sockets[l.c]))]
                else s'.calls == s.calls)
  {
    hide Enabled, Next, Becomes;
    CallsMade(sv, s, l);
    forall c: int | 0 <= c < |s.sockets|
      ensures Becomes(s.sockets[c], Next(sv, s, l).sockets[c], l.Leave? && l.c == c)
    {
      OneBecomes(sv, s, l, c);
    }
  }

  /** The state after a step, as far as the registry is concerned. */
  ghost predicate Alike(s: State, s': State) {
    && |s'.sockets| == |s.sockets| && s'.calls == s.calls
    && (forall c :: 0 <= c < |s.sockets| ==> Becomes(s.sockets[c], s'.sockets[c], false))
  }

  lemma FitsAlike(s: State, s': State)
    requires Alike(s, s') && CallsFit(s)
    ensures CallsFit(s')
  {
    forall h
      ensures IsHandle(s', h) <==> IsHandle(s, h)
      ensures IsLive(s', h) <==> IsLive(s, h)
    {
    }
    forall uuid ensures Latest(s', uuid) {
      assert Latest(s, uuid);
    }
    forall c | 0 <= c < |s'.sockets| ensures WasRegistered(s', c) {
      assert WasRegistered(s, c);
    }
  }

  /** A connection is added and registered. */
  ghost predicate Registers(s: State, s': State, uuid: string) {
    && |s'.sockets| == |s.sockets| + 1
    && (forall c :: 0 <= c < |s.sockets| ==> Becomes(s.sockets[c], s'.sockets[c], false))
    && s'.sockets[|s.sockets|].uuid == uuid && !s'.sockets[|s.sockets|].phase.Gone?
    && s'.calls == s.calls + [SocketRegistry.Register(SocketRegistry.Socket(|s.sockets|, uuid))]
  }

  /** Connection `c` leaves and is deregistered. */
  ghost predicate Deregisters(s: State, s': State, c: nat) {
    && |s'.sockets| == |s.sockets| && c < |s.sockets| && !s.sockets[c].phase.Gone?
    && (forall d :: 0 <= d < |s.sockets| ==> Becomes(s.sockets[d], s'.sockets[d], d == c))
    && s'.calls == s.calls + [SocketRegistry.Deregister(Handle(c, s.sockets[c]))]
  }

  lemma RegisterLive(s: State, s': State, uuid: string)
    requires LiveFit(s) && Registers(s, s', uuid)
    ensures LiveFit(s')
  {
    hide SocketRegistry.Live;
    SocketRegistry.CallAdded(s.calls, SocketRegistry.Register(SocketRegistry.Socket(|s.sockets|, uuid)));
    forall h
      ensures h in SocketRegistry.Live(s'.calls) <==> IsLive(s', h)
    {
      assert h in SocketRegistry.Live(s.calls) <==> IsLive(s, h);
    }
  }

  lemma DeregisterLive(s: State, s': State, c: nat)
    requires LiveFit(s) && Deregisters(s, s', c)
    ensures LiveFit(s')
  {
    hide SocketRegistry.Live;
    SocketRegistry.CallAdded(s.calls, SocketRegistry.Deregister(Handle(c, s.sockets[c])));
    forall h
      ensures h in SocketRegistry.Live(s'.calls) <==> IsLive(s', h)
    {
      assert h in SocketRegistry.Live(s.calls) <==> IsLive(s, h);
    }
  }

  lemma RegisterHandles(s: State, s': State, uuid: string)
    requires HandlesFit(s) && Registers(s, s', uuid)
    ensures HandlesFit(s')
  {
    forall i | 0 <= i < |s'.calls|
      ensures IsHandle(s', s'.calls[i].socket)
    {
      assert i < |s.calls| ==> IsHandle(s, s.calls[i].socket);
    }
  }

  lemma DeregisterHandles(s: State, s': State, c: nat)
    requires HandlesFit(s) && Deregisters(s, s', c)
    ensures HandlesFit(s')
  {
    forall i | 0 <= i < |s'.calls|
      ensures IsHandle(s', s'.calls[i].socket)
    {
      assert i < |s.calls| ==> IsHandle(s, s.calls[i].socket);
    }
  }

  lemma RegisterLatest(s: State, s': State, uuid: string, u: string)
    requires HandlesFit(s) && Latest(s, u) && Registers(s, s', uuid)
    ensures Latest(s', u)
  {
    hide SocketRegistry.LastOn;
    SocketRegistry.LastAdded(s.calls, SocketRegistry.Register(SocketRegistry.Socket(|s.sockets|, uuid)), u);
  }

  lemma DeregisterLatest(s: State, s': State, c: nat, u: string)
    requires Latest(s, u) && Deregisters(s, s', c)
    ensures Latest(s', u)
  {
    hide SocketRegistry.LastOn;
    SocketRegistry.LastAdded(s.calls, SocketRegistry.Deregister(Handle(c, s.sockets[c])), u);
  }

  lemma RegisterKept(s: State, s': State, uuid: string, c: int)
    requires Registers(s, s', uuid) && 0 <= c < |s'.sockets| && (c < |s.sockets| ==> WasRegistered(s, c))
    ensures WasRegistered(s', c)
  {
    assert s'.calls[|s.calls|] in s'.calls;
  }

  lemma DeregisterKept(s: State, s': State, c: nat, d: int)
    requires Deregisters(s, s', c) && 0 <= d < |s.sockets| && WasRegistered(s, d)
    ensures WasRegistered(s', d)
  {
  }

  lemma FitsRegister(s: State, s': State, uuid: string)
    requires CallsFit(s) && Registers(s, s', uuid)
    ensures CallsFit(s')
  {
    var call := SocketRegistry.Register(SocketRegistry.Socket(|s.sockets|, uuid));
    SocketRegistry.CallAdded(s.calls, call);
    assert forall i :: 0 <= i < |s.calls| ==> IsHandle(s, s.calls[i].socket);
    assert s'.calls == s.calls + [call];
    hide SocketRegistry.Lifecycle, SocketRegistry.Live, HandlesFit, LiveFit, Latest, WasRegistered, Registers;
    RegisterLive(s, s', uuid);
    RegisterHandles(s, s', uuid);
    forall u ensures Latest(s', u) {
      RegisterLatest(s, s', uuid, u);
    }
    forall c | 0 <= c < |s'.sockets| ensures WasRegistered(s', c) {
      RegisterKept(s, s', uuid, c);
    }
  }

  lemma FitsDeregister(s: State, s': State, c: nat)
    requires CallsFit(s) && Deregisters(s, s', c)
    ensures CallsFit(s')
  {
    var call := SocketRegistry.Deregister(Handle(c, s.sockets[c]));
    SocketRegistry.CallAdded(s.calls, call);
    assert IsLive(s, Handle(c, s.sockets[c])) && s'.calls == s.calls + [call] && |s'.sockets| == |s.sockets|;
    assert Handle(c, s.sockets[c]) in SocketRegistry.Live(s.calls);
    hide SocketRegistry.Lifecycle, SocketRegistry.Live, HandlesFit, LiveFit, Latest, WasRegistered, Deregisters;
    DeregisterLive(s, s', c);
    DeregisterHandles(s, s', c);
    forall u ensures Latest(s', u) {
      DeregisterLatest(s, s', c, u);
    }
    forall d | 0 <= d < |s'.sockets| ensures WasRegistered(s', d) {
      DeregisterKept(s, s', c, d);
    }
  }

  lemma {:induction false} CallsFitHolds(sv: Server, run: seq<Moment>)
    requires IsRun(sv, run)
    ensures CallsFit(After(run))
  {
    hide Next, Enabled, CallsFit;
    if run == [] {
      NoCallsFit();
    } else {
      LastStep(sv, run);
      var s, s', l := After(run[..|run| - 1]), After(run), run[|run| - 1].step;
      CallsFitHolds(sv, run[..|run| - 1]);
      CallsChange(sv, s, l);
      if l.Connect? {
        FitsRegister(s, s', l.uuid);
      } else if l.Leave? {
        FitsDeregister(s, s', l.c);
      } else {
        FitsAlike(s, s');
      }
    }
  }

  lemma NoCallsFit()
    ensures CallsFit(INITIAL)
  {
  }

  // ---------------------------------------------------------------- the registry in every run

  /** The handles of the connections that have not been deregistered. */
  ghost function LiveSockets(s: State): (r: set<SocketRegistry.Socket>) {
    set c: int | 0 <= c < |s.sockets| && !s.sockets[c].phase.Gone? :: Handle(c, s.sockets[c])
  }

  /** In every run: the counter is the number of connections that have not left; a UUID finds only
      a live connection that goes by it, and the newest that does; the registry is no larger than
      the counter, and as large exactly when every live connection is found under its UUID, that
      is, when the last call about its UUID is the one that registered it. */
  lemma RegistryInEveryRun(sv: Server, run: seq<Moment>)
    requires IsRun(sv, run)
    ensures var s := After(run);
            && Registered(s).counter == |LiveSockets(s)|
            && |Registered(s).sockets| <= Registered(s).counter
            && (|Registered(s).sockets| == Registered(s).counter <==>
                forall h :: h in LiveSockets(s) ==> SocketRegistry.LastOn(s.calls, h.uuid) == Some(SocketRegistry.Register(h)))
    ensures var s := After(run);
            forall uuid :: uuid in Registered(s).sockets ==>
              var h := Registered(s).sockets[uuid];
              IsLive(s, h) && h.uuid == uuid && NoneLater(s, uuid, h.id, |s.sockets|)
  {
    hide IsRun, After;
    var s := After(run);
    CallsFitHolds(sv, run);
    assert LiveSockets(s) == SocketRegistry.Live(s.calls);
    SocketRegistry.CounterIsLive(s.calls);
    SocketRegistry.SizeIsFound(s.calls);
    forall uuid | uuid in Registered(s).sockets
      ensures var h := Registered(s).sockets[uuid];
              IsLive(s, h) && h.uuid == uuid && NoneLater(s, uuid, h.id, |s.sockets|)
    {
      FoundIsLatest(s, uuid);
    }
  }

  lemma FoundIsLatest(s: State, uuid: string)
    requires CallsFit(s) && uuid in Registered(s).sockets
    ensures var h := Registered(s).sockets[uuid];
            IsLive(s, h) && h.uuid == uuid && NoneLater(s, uuid, h.id, |s.sockets|)
  {
    var h := Registered(s).sockets[uuid];
    SocketRegistry.FoundIsLive(s.calls, uuid);
    SocketRegistry.FindsLastRegistered(s.calls, uuid, h);
    assert h in SocketRegistry.Live(s.calls) && Latest(s, uuid);
  }

  /** A deregistration never meets a counter of zero. */
  lemma CounterNeverClamped(sv: Server, run: seq<Moment>, l: Label)
    requires IsRun(sv, run) && l.Leave? && Enabled(After(run), l)
    ensures Registered(After(run)).counter > 0
  {
    hide IsRun, After, SocketRegistry.After;
    var s := After(run);
    CallsFitHolds(sv, run);
    SocketRegistry.CounterIsLive(s.calls);
    assert IsLive(s, Handle(l.c, s.sockets[l.c]));
  }

  // ---------------------------------------------------------------- routes

  /** The connection chosen is the newest of those there were that go by the UUID the record names,
      and the record comes from one of them. */
  ghost predicate Right(s: State, route: Route) {
    && route.target < route.among <= |s.sockets|
    && route.rec.owner < route.among
    && s.sockets[route.rec.owner].uuid == route.rec.value.socketId == s.sockets[route.target].uuid
    && NoneLater(s, route.rec.value.socketId, route.target, route.among)
  }

  ghost predicate AllRight(s: State) {
    forall i :: 0 <= i < |s.routed| ==> Right(s, s.routed[i])
  }

  lemma RightLater(sv: Server, s: State, l: Label, route: Route)
    requires Enabled(s, l) && Right(s, route)
    ensures Right(Next(sv, s, l), route)
  {
    CallsChange(sv, s, l);
    hide Next, Enabled;
  }

  lemma RouteRight(sv: Server, s: State)
    requires Enabled(s, Lookup) && CallsFit(s) && DeliverySafety.Known(s, s.ackLoop.rec)
    ensures var s' := Next(sv, s, Lookup);
            s'.routed == s.routed || (s'.routed != [] && s'.routed == s.routed + [s'.routed[|s'.routed| - 1]]
                                      && Right(s', s'.routed[|s'.routed| - 1]))
  {
    hide SocketRegistry.After, CallsFit;
    var found := SocketRegistry.Find(Registered(s), s.ackLoop.rec.value.socketId);
    if found.Some? {
      FoundIsLatest(s, s.ackLoop.rec.value.socketId);
    }
  }

  lemma RoutedChange(sv: Server, s: State, l: Label)
    requires Enabled(s, l) && !l.Lookup?
    ensures Next(sv, s, l).routed == s.routed
  {
    hide StepAt, Announced, Enqueued, ConfirmsNow, SocketRegistry.After;
  }

  lemma {:induction false} RoutesRight(sv: Server, run: seq<Moment>)
    requires WellConfigured(sv) && IsRun(sv, run)
    ensures AllRight(After(run))
  {
    hide Next, Enabled, CallsFit, Right, WellConfigured, DeliverySafety.SocketSafe, DeliverySafety.IsConfirmed, SocketRegistry.After;
    if run != [] {
      LastStep(sv, run);
      var before, l := run[..|run| - 1], run[|run| - 1].step;
      var s := After(before);
      RoutesRight(sv, before);
      forall i | 0 <= i < |s.routed|
        ensures Right(Next(sv, s, l), s.routed[i])
      {
        RightLater(sv, s, l, s.routed[i]);
      }
      if l.Lookup? {
        CallsFitHolds(sv, before);
        DeliverySafety.SafeHolds(sv, before);
        LookupHolds(s);
        RouteRight(sv, s);
      } else {
        RoutedChange(sv, s, l);
      }
    }
  }

  /** Where a lookup sends a record, by the last call to the registry about the UUID it names. */
  lemma LookedUpBy(sv: Server, s: State, c: nat)
    requires Enabled(s, Lookup) && CallsFit(s) && c < |s.sockets| && s.ackLoop.rec.value.socketId == s.sockets[c].uuid
    ensures var s', rec := Next(sv, s, Lookup), s.ackLoop.rec;
            var last := SocketRegistry.LastOn(s.calls, rec.value.socketId);
            && last.Some? && last.value.socket.id < |s.sockets|
            && (if last.value.Register? then s'.ackLoop == Sending(Route(rec, last.value.socket.id, |s.sockets|)) && s'.missed == s.missed
                else s'.ackLoop.Waiting? && s'.missed == s.missed + [rec] && s'.routed == s.routed)
            && last.value.socket == Handle(last.value.socket.id, s.sockets[last.value.socket.id])
  {
    hide SocketRegistry.After, SocketRegistry.Lifecycle, SocketRegistry.Live;
    var uuid := s.ackLoop.rec.value.socketId;
    assert WasRegistered(s, c);
    var last := SocketRegistry.LastOn(s.calls, uuid).value;
    var i :| 0 <= i < |s.calls| && s.calls[i] == last;
    assert IsHandle(s, s.calls[i].socket);
    SocketRegistry.FindsLastRegistered(s.calls, uuid, last.socket);
    var found := SocketRegistry.Find(Registered(s), uuid);
    if found.Some? {
      SocketRegistry.FindsLastRegistered(s.calls, uuid, found.value);
    }
  }

  /** In every run, what happens to a confirmed record when it is looked up depends on the last call
      to the registry about the UUID of the connection that read it, and on nothing else. If that
      call registered this very connection, the record is acknowledged there, and only then; if it
      registered another, the record goes to that one; if it was a deregistration, of whichever
      connection, the record is missed, and only then. */
  lemma LookedUpExactly(sv: Server, run: seq<Moment>)
    requires WellConfigured(sv) && IsRun(sv, run) && Enabled(After(run), Lookup)
    ensures After(run).ackLoop.Holding? && After(run).ackLoop.rec.owner < |After(run).sockets|
    ensures var s, s' := After(run), Next(sv, After(run), Lookup);
            var rec := s.ackLoop.rec;
            var k := s.sockets[rec.owner];
            var last := SocketRegistry.LastOn(s.calls, k.uuid);
            && last.Some?
            && (last == Some(SocketRegistry.Register(Handle(rec.owner, k))) <==>
                s'.ackLoop.Sending? && s'.ackLoop.route.rec == rec && s'.ackLoop.route.target == rec.owner)
            && (last.value.Register? && last.value.socket.id != rec.owner <==>
                s'.ackLoop.Sending? && s'.ackLoop.route.rec == rec && s'.ackLoop.route.target != rec.owner)
            && (last.value.Deregister? <==> s'.ackLoop.Waiting? && s'.missed == s.missed + [rec])
  {
    LookupHolds(After(run));
    CallsFitHolds(sv, run);
    DeliverySafety.SafeHolds(sv, run);
    hide IsRun, After, WellConfigured, Enabled, Next, CallsFit, SocketRegistry.LastOn, DeliverySafety.SocketSafe, DeliverySafety.IsConfirmed;
    var s := After(run);
    assert DeliverySafety.Known(s, s.ackLoop.rec);
    LookedUpBy(sv, s, s.ackLoop.rec.owner);
  }

  lemma LookupHolds(s: State)
    requires Enabled(s, Lookup)
    ensures s.ackLoop.Holding?
  {
  }

  /** In every run, an acknowledgement goes to a connection with the UUID of the one the record was
      read from, and never to an older one. It goes to that very connection exactly when no
      connection that came later, up to the lookup, goes by the same UUID. */
  lemma AcknowledgedAtHome(sv: Server, run: seq<Moment>, route: Route)
    requires WellConfigured(sv) && IsRun(sv, run) && route in After(run).routed
    ensures var s := After(run);
            && route.rec.owner <= route.target < |s.sockets| && route.among <= |s.sockets|
            && s.sockets[route.target].uuid == s.sockets[route.rec.owner].uuid
            && (route.target == route.rec.owner <==>
                NoneLater(s, s.sockets[route.rec.owner].uuid, route.rec.owner, route.among))
  {
    RoutesRight(sv, run);
    hide IsRun, After, WellConfigured;
    var s := After(run);
    var i :| 0 <= i < |s.routed| && s.routed[i] == route;
    assert Right(s, s.routed[i]);
  }

  /** If no two connections of the run go by the same UUID, every acknowledgement goes home. */
  lemma DistinctUuidsGoHome(sv: Server, run: seq<Moment>, route: Route)
    requires WellConfigured(sv) && IsRun(sv, run) && route in After(run).routed
    requires var s := After(run);
             forall c, d :: 0 <= c < d < |s.sockets| ==> s.sockets[c].uuid != s.sockets[d].uuid
    ensures route.target == route.rec.owner
  {
    AcknowledgedAtHome(sv, run, route);
    hide IsRun, After, WellConfigured;
  }
}
