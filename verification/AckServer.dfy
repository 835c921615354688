/** The server object: it registers connections and drains the channel of confirmed records. */
module AckServer {
  import opened GoTypes
  import opened Dispatchers
  import opened Serializer
  import opened SocketManagers
  import opened SocketRegistry
  import Delivery
  import ReliableAckConfig

  /** What becomes of a confirmed record: an acknowledgement for a socket, or a miss. */
  datatype Handled = AckFor(socket: Socket, message: SocketMessage) | Miss

  function HandledOf(s: State, record: RecordValue): (r: Handled) {
    match Find(s, record.socketId)
    case Some(socket) => AckFor(socket, SocketMessage(record.txid, AckOf(record)))
    case None => Miss
  }

  function AllHandled(s: State, records: seq<RecordValue>): (r: seq<Handled>)
    ensures |r| == |records| && forall i :: 0 <= i < |r| ==> r[i] == HandledOf(s, records[i])
  {
    seq(|records|, i requires 0 <= i < |records| => HandledOf(s, records[i]))
  }

  function Acks(outcomes: seq<Handled>): (r: seq<Handled>)
    ensures forall o :: o in r <==> o in outcomes && o.AckFor?
    ensures |r| <= |outcomes|
  {
    if outcomes == [] then []
    else Acks(outcomes[..|outcomes| - 1]) + if outcomes[|outcomes| - 1].AckFor? then [outcomes[|outcomes| - 1]] else []
  }

  class Server {
    const rules: map<string, seq<Dispatcher>>
    const registry: Registry
    var reliableAckCount: nat
    var reliableAckMissCount: nat
    var sent: seq<Handled>
    var dispatched: seq<Effect>

    constructor (rules: map<string, seq<Dispatcher>>, registry: Registry)
      ensures this.rules == rules && this.registry == registry
      ensures reliableAckCount == reliableAckMissCount == 0 && sent == [] && dispatched == []
    {
      this.rules, this.registry := rules, registry;
      reliableAckCount, reliableAckMissCount, sent, dispatched := 0, 0, [], [];
    }

    /** handleAcks, for the records that have come through the channel: each is acknowledged once, to
        the socket its id finds, or counted as a miss; in the order of the channel. */
    method HandleAcks(ackChan: seq<RecordValue>)
      modifies this`reliableAckCount, this`reliableAckMissCount, this`sent
      ensures var outcomes := AllHandled(registry.Contents(), ackChan);
              && sent == old(sent) + Acks(outcomes)
              && reliableAckCount == old(reliableAckCount) + |Acks(outcomes)|
              && reliableAckCount + reliableAckMissCount == old(reliableAckCount + reliableAckMissCount) + |ackChan|
    {
      hide AckOf, HandledOf;
      ghost var outcomes := AllHandled(registry.Contents(), ackChan);
      for i := 0 to |ackChan|
        invariant sent == old(sent) + Acks(outcomes[..i])
        invariant reliableAckCount == old(reliableAckCount) + |Acks(outcomes[..i])|
        invariant reliableAckCount + reliableAckMissCount == old(reliableAckCount + reliableAckMissCount) + i
      {
        var record := ackChan[i];
        var socket := registry.GetSocket(record.socketId);
        HandledBy(registry.Contents(), record);
        assert outcomes[..i + 1][..i] == outcomes[..i];
        if socket.Some? {
          reliableAckCount := reliableAckCount + 1;
          sent := sent + [AckFor(socket.value, SocketMessage(record.txid, AckOf(record)))];
        } else {
          reliableAckMissCount := reliableAckMissCount + 1;
        }
      }
      assert outcomes[..|ackChan|] == outcomes;
    }

    /** registerSocket: the registry first, then the connectivity event, if it could be made a record. */
    method RegisterSocket(socket: Socket, event: Option<RecordValue>)
      modifies this`dispatched, registry
      ensures registry.Contents() == Step(old(registry.Contents()), Register(socket))
      ensures dispatched == old(dispatched) + EventEffects(rules, event)
    {
      registry.RegisterSocket(socket);
      DispatchConnectivityEvent(event);
    }

    /** deregisterSocket. */
    method DeregisterSocket(socket: Socket, event: Option<RecordValue>)
      modifies this`dispatched, registry
      ensures registry.Contents() == Step(old(registry.Contents()), Deregister(socket))
      ensures dispatched == old(dispatched) + EventEffects(rules, event)
    {
      registry.DeregisterSocket(socket);
      DispatchConnectivityEvent(event);
    }

    method DispatchConnectivityEvent(event: Option<RecordValue>)
      modifies this`dispatched
      ensures dispatched == old(dispatched) + EventEffects(rules, event)
    {
      if ReliableAckConfig.CONNECTIVITY !in rules || event.None? {
        return;
      }
      var producers := rules[ReliableAckConfig.CONNECTIVITY];
      for i := 0 to |producers|
        invariant dispatched == old(dispatched) + EventEffects(rules, event)[..i]
      {
        dispatched := dispatched + [Produced(event.value, producers[i])];
      }
    }
  }

  lemma HandledBy(s: State, record: RecordValue)
    ensures HandledOf(s, record) == match Find(s, record.socketId)
                                    case Some(socket) => AckFor(socket, SocketMessage(record.txid, AckOf(record)))
                                    case None => Miss
  {
  }

  /** What an event does, given that it could be made a record. */
  function EventEffects(rules: map<string, seq<Dispatcher>>, event: Option<RecordValue>): (effects: seq<Effect>) {
    if event.None? then [] else Carried(event.value, Dispatches(rules, ReliableAckConfig.CONNECTIVITY))
  }

  /** An event goes to each producer listed for connectivity, in order, and to no one else. */
  lemma EventGoesToEach(rules: map<string, seq<Dispatcher>>, event: Option<RecordValue>)
    ensures var effects := EventEffects(rules, event);
            if event.None? || "connectivity" !in rules then effects == []
            else
              && |effects| == |rules["connectivity"]|
              && forall i :: 0 <= i < |effects| ==> effects[i] == Produced(event.value, rules["connectivity"][i])
  {
    hide AckOf, ErrorOf;
  }

  /** In the concurrent system an announcement amounts to the same. */
  lemma AnnouncementFollowsServer(c: nat, conn: Connection, n: nat, event: RecordValue)
    requires event.txType == "connectivity"
    ensures var tasks, effects := Delivery.InputTasks(c, conn, n, Delivery.Event(event)), EventEffects(conn.settings.rules, Some(event));
            && |tasks| == |effects|
            && forall i :: 0 <= i < |tasks| ==>
                 tasks[i].Do? && tasks[i].rec == Delivery.Rec(c, n, event) && EffectOf(event, tasks[i].act) == effects[i]
  {
    hide EffectOf;
  }

  /** The step in which the concurrent system looks a record up does what the loop does with it. */
  lemma LookupFollowsLoop(sv: Delivery.Server, s: Delivery.State)
    requires Delivery.Enabled(s, Delivery.Lookup)
    ensures var s' := Delivery.Next(sv, s, Delivery.Lookup);
            var rec := s.ackLoop.rec;
            match HandledOf(Delivery.Registered(s), rec.value)
            case AckFor(socket, message) =>
              && s'.ackLoop.Sending? && s'.ackLoop.route.rec == rec && s'.ackLoop.route.target == socket.id
              && message == SocketMessage(rec.value.txid, Delivery.Response(rec, true).Bytes())
              && s'.ackCount == s.ackCount + 1 && s'.missCount == s.missCount
            case Miss => s'.ackLoop.Waiting? && s'.ackCount == s.ackCount && s'.missCount == s.missCount + 1
  {
    hide AckOf, After;
  }
}
