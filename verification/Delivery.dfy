/** The server as concurrent steps: readers and writers of all connections, the producers and the
    loop that hands reliable acknowledgements back to the connection a record came from. */
module Delivery {
  import opened GoTypes
  import opened Dispatchers
  import opened Serializer
  import opened SocketManagers
  import SocketRegistry
  import RedisProducer
  import MqttProducer
  import ReliableAckConfig

  /** Room in the channel between a reader and its writer. */
  const QUEUE_LIMIT: nat := 1000

  const CONNECTIVITY := ReliableAckConfig.CONNECTIVITY

  /** The configuration: the settings of the connections, and of the producers. */
  datatype Server = Server(settings: Settings, acks: map<Dispatcher, set<string>>, codec: Codec,
                           redis: RedisProducer.Config, mqttTimeout: int)

  /** The configuration is one that was accepted. */
  ghost predicate WellConfigured(sv: Server) {
    && (forall t <- sv.settings.sources :: ReliableAckConfig.ValidSource(sv.settings.rules, t, sv.settings.sources[t]))
    && sv.acks == ReliableAckConfig.Inverse(sv.settings.sources)
    && sv.redis.ackedTypes == AckedBy(sv.acks, Redis)
  }

  /** The types a producer is told to acknowledge. */
  function AckedBy(acks: map<Dispatcher, set<string>>, d: Dispatcher): (types: set<string>) {
    if d in acks then acks[d] else {}
  }

  /** Every configuration the producers could be set up with makes a well configured server, whose
      Redis producer acknowledges the types that have it as their source. */
  method InitServer(records: ReliableAckConfig.Records, sources: ReliableAckConfig.Sources, available: set<Dispatcher>,
                    transmitDecoded: bool, limiterEnabled: bool, codec: Codec, redis: RedisProducer.Config, mqttTimeout: int)
    returns (r: ReliableAckConfig.Result<Server>)
    ensures r.Success? <==>
            && (forall t <- sources :: t != "connectivity" && sources[t] != Logger && t in records && sources[t] in records[t])
            && forall t <- records :: records[t] != [] && forall d <- records[t] :: d == Logger || d in available
    ensures r.Success? ==>
              && WellConfigured(r.value)
              && r.value.settings.rules == records && r.value.settings.sources == sources
              && r.value.settings.transmitDecoded == transmitDecoded && r.value.settings.limiterEnabled == limiterEnabled
              && r.value.codec == codec && r.value.mqttTimeout == mqttTimeout
              && r.value.redis == redis.(ackedTypes := set t | t in sources && sources[t] == Redis)
  {
    var producers := ReliableAckConfig.ConfigureProducers(records, sources, available);
    if producers.Failure? {
      return ReliableAckConfig.Failure(producers.error);
    }
    var settings := Settings(producers.value.rules, sources, transmitDecoded, limiterEnabled);
    var redisConfig := redis.(ackedTypes := AckedBy(producers.value.acks, Redis));
    r := ReliableAckConfig.Success(Server(settings, producers.value.acks, codec, redisConfig, mqttTimeout));
  }

  // ---------------------------------------------------------------- records and tasks

  /** A record object: the connection that made it, as its how-manieth, and its contents. */
  datatype Rec = Rec(owner: nat, number: nat, value: RecordValue)

  /** What a reader has yet to do: something about a record, or to pass on that it is confirmed. */
  datatype Task = Do(rec: Rec, act: Act) | Push(rec: Rec)

  /** Beginning it makes a producer panic. */
  predicate TaskCrashes(task: Task) {
    task.Do? && CrashesAct(task.rec.value, task.act)
  }

  function Tasks(rec: Rec, acts: seq<Act>): (tasks: seq<Task>) {
    seq(|acts|, i requires 0 <= i < |acts| => Do(rec, acts[i]))
  }

  /** A message for the vehicle: an acknowledgement, or an error response. */
  datatype Response = Response(rec: Rec, ok: bool) {
    function Bytes(): Bytes {
      if ok then AckOf(rec.value) else ErrorOf(rec.value)
    }
  }

  /** How a producer fares with a record. For Kafka `Plain` says whether the message was taken. */
  datatype Attempt =
    | OnRedis(members: seq<RedisProducer.Member>, now: int, answers: RedisProducer.Answers)
    | OnMqtt(marshals: nat -> bool, broker: nat -> MqttProducer.Token, lag: nat -> nat)
    | Plain(ok: bool)

  predicate Fits(d: Dispatcher, a: Attempt) {
    match d
    case Redis => a.OnRedis?
    case Mqtt => a.OnMqtt?
    case _ => a.Plain?
  }

  /** The data store has the record: every selected channel was published to, every publish
      answered well and in time, the delivery report had no error, the call returned no error. */
  ghost predicate Confirms(sv: Server, rec: Rec, d: Dispatcher, a: Attempt) {
    && Fits(d, a)
    && match d
       case Redis =>
         var entry := RedisProducer.Entry(rec.value.txType, rec.value.vin, |rec.value.payload|);
         RedisProducer.Published(sv.redis, entry, a.members, a.now, a.answers)
       case Mqtt =>
         MqttProducer.AllTimely(MqttProducer.Prepare(false, rec.value.message, a.marshals, a.broker), a.lag, sv.mqttTimeout)
       case Logger => false
       case _ => a.ok
  }

  /** A producer that panics confirms nothing. */
  lemma PanicNeverConfirms(sv: Server, rec: Rec, d: Dispatcher, a: Attempt)
    requires Crashes(rec.value, d)
    ensures !Confirms(sv, rec, d, a)
  {
  }

  datatype Confirmation = Confirmation(rec: Rec, dispatcher: Dispatcher, attempt: Attempt)

  /** The producer passes confirmations of this type on: ProcessReliableAck. */
  predicate PassesOn(sv: Server, d: Dispatcher, txType: string) {
    d in sv.acks && txType in sv.acks[d]
  }

  // ---------------------------------------------------------------- connections

  /** Registered but not reading yet; reading; done reading, or unwound by a panic; deregistered. */
  datatype Phase = Starting | Open | Closed | Gone

  datatype Writer = NotStarted | Running | Stopped

  /** What a connection makes a record of: a message from the vehicle, or its own coming or going. */
  datatype Input = Message(frame: Frame) | Event(record: RecordValue)

  /** A connection. `inputs`, `done`, `queued`, `wire` and `lost` only record what happened. */
  datatype Socket = Socket(
    uuid: string, identity: RequestIdentity, phase: Phase, writer: Writer,
    todo: seq<Task>, queue: seq<Response>,
    inputs: seq<Input>, done: seq<Task>, queued: seq<Response>, wire: seq<Response>, lost: seq<Response>)

  function ConnectionOf(sv: Server, k: Socket): Connection {
    Connection(sv.settings, Context(sv.settings.rules, k.identity), sv.codec, k.uuid)
  }

  /** The record an input makes. */
  function Parsed(conn: Connection, input: Input): (r: RecordValue) {
    match input
    case Message(frame) => conn.Parse(frame).record
    case Event(record) => record
  }

  /** What is to be done about an input. */
  function ActsFor(conn: Connection, input: Input): (acts: seq<Act>) {
    match input
    case Message(frame) => conn.Acts(frame)
    case Event(record) => Dispatches(conn.settings.rules, record.txType)
  }

  /** The tasks the `n`th input of connection `c` leads to. */
  function InputTasks(c: nat, conn: Connection, n: nat, input: Input): (tasks: seq<Task>) {
    Tasks(Rec(c, n, Parsed(conn, input)), ActsFor(conn, input))
  }

  /** The record of a connectivity event, as far as the rest of the server looks at it. */
  predicate IsEvent(k: Socket, event: Option<RecordValue>) {
    event.Some? ==>
      && event.value.txType == CONNECTIVITY && event.value.socketId == k.uuid && event.value.txid == k.uuid
      && event.value.message.Connectivity?
  }

  function NewSocket(uuid: string, identity: RequestIdentity): (k: Socket) {
    Socket(uuid, identity, Starting, NotStarted, [], [], [], [], [], [], [])
  }

  function Given(sv: Server, c: nat, k: Socket, input: Input): (r: Socket) {
    k.(inputs := k.inputs + [input],
       todo := k.todo + InputTasks(c, ConnectionOf(sv, k), |k.inputs|, input))
  }

  function Announced(sv: Server, c: nat, k: Socket, event: Option<RecordValue>): (r: Socket) {
    if event.Some? then Given(sv, c, k, Event(event.value)) else k
  }

  function Enqueued(k: Socket, r: Response): (r': Socket) {
    k.(queue := k.queue + [r], queued := k.queued + [r])
  }

  function Replied(k: Socket): (r: Socket)
    requires k.todo != [] && k.todo[0].Do?
  {
    Enqueued(k, Response(k.todo[0].rec, k.todo[0].act.Ack?)).(todo := k.todo[1..], done := k.done + [k.todo[0]])
  }

  function Written(k: Socket, ok: bool): (r: Socket)
    requires k.queue != []
  {
    if ok then k.(queue := k.queue[1..], wire := k.wire + [k.queue[0]])
    else k.(queue := k.queue[1..], lost := k.lost + [k.queue[0]], writer := Stopped)
  }

  /** The first task, a dispatch, has been tried; `pass` says whether to pass on a confirmation. */
  function Tried(k: Socket, pass: bool): (r: Socket)
    requires k.todo != [] && k.todo[0].Do?
  {
    k.(todo := (if pass then [Push(k.todo[0].rec)] else []) + k.todo[1..], done := k.done + [k.todo[0]])
  }

  /** The first task, a dispatch, made its producer panic: the reader unwinds, and what was left to
      do is dropped. */
  function Unwound(k: Socket): (r: Socket)
    requires k.todo != []
  {
    k.(phase := Closed, todo := [], done := k.done + [k.todo[0]])
  }

  // ---------------------------------------------------------------- the system

  /** An acknowledgement on its way to a connection, chosen when there had been `among` connections. */
  datatype Route = Route(rec: Rec, target: nat, among: nat)

  /** The loop that drains the channel of confirmed records. */
  datatype AckLoop = Waiting | Holding(rec: Rec) | Sending(route: Route)

  /** `calls`, `confirmed`, `routed`, `delivered` and `missed` only record what happened; the
      contents of the registry follow from the calls made to it. */
  datatype State = State(
    sockets: seq<Socket>, calls: seq<SocketRegistry.Op>,
    kafkaPending: multiset<Rec>, kafkaLoop: Option<Rec>, ackLoop: AckLoop, ackCount: nat, missCount: nat,
    confirmed: seq<Confirmation>, routed: seq<Route>, delivered: seq<Route>, missed: seq<Rec>)

  const INITIAL := State([], [], multiset{}, None, Waiting, 0, 0, [], [], [], [])

  datatype Label =
    | Connect(uuid: string, identity: RequestIdentity, event: Option<RecordValue>)
    | Start(c: nat)
    | Receive(c: nat, frame: Frame)
    | EndReading(c: nat)
    | Leave(c: nat, event: Option<RecordValue>)
    | Reply(c: nat)
    | Dispatch(c: nat, attempt: Attempt)
    | PushAck(c: nat)
    | KafkaReport(rec: Rec, ok: bool)
    | KafkaPush
    | Lookup
    | Deliver
    | StopWriter(c: nat)
    | Write(c: nat, ok: bool)

  function Handle(c: nat, k: Socket): SocketRegistry.Socket {
    SocketRegistry.Socket(c, k.uuid)
  }

  function Registered(s: State): SocketRegistry.State {
    SocketRegistry.After(s.calls)
  }

  /** A step of one connection. */
  predicate AtSocket(l: Label) {
    l.Start? || l.Receive? || l.EndReading? || l.Leave? || l.Reply? || l.Dispatch? || l.PushAck? || l.StopWriter? || l.Write?
  }

  predicate EnabledAt(k: Socket, waiting: bool, l: Label)
    requires AtSocket(l)
  {
    match l
    case Start(_) => k.phase.Starting? && k.todo == []
    case Receive(_, frame) => k.phase.Open? && k.todo == [] && frame.binary
    case EndReading(_) => k.phase.Open? && k.todo == []
    case Leave(_, event) => k.phase.Closed? && k.todo == [] && IsEvent(k, event)
    case Reply(_) => k.todo != [] && k.todo[0].Do? && !k.todo[0].act.Produce? && |k.queue| < QUEUE_LIMIT
    case Dispatch(_, attempt) => k.todo != [] && k.todo[0].Do? && k.todo[0].act.Produce? && Fits(k.todo[0].act.dispatcher, attempt)
    case PushAck(_) => k.todo != [] && k.todo[0].Push? && waiting
    case StopWriter(_) => k.writer.Running? && (k.phase.Closed? || k.phase.Gone?)
    case Write(_, _) => k.writer.Running? && k.queue != []
  }

  predicate Enabled(s: State, l: Label) {
    if AtSocket(l) then l.c < |s.sockets| && EnabledAt(s.sockets[l.c], s.ackLoop.Waiting?, l)
    else match l
      case Connect(uuid, identity, event) => IsEvent(NewSocket(uuid, identity), event)
      case KafkaReport(rec, _) => rec in s.kafkaPending && s.kafkaLoop.None?
      case KafkaPush => s.kafkaLoop.Some? && s.ackLoop.Waiting?
      case Lookup => s.ackLoop.Holding?
      case Deliver => s.ackLoop.Sending? && s.ackLoop.route.target < |s.sockets| && |s.sockets[s.ackLoop.route.target].queue| < QUEUE_LIMIT
  }

  /** The connection after a step of its own. */
  ghost function StepAt(sv: Server, c: nat, k: Socket, l: Label): (r: Socket)
    requires AtSocket(l) && EnabledAt(k, true, l)
  {
    match l
    case Start(_) => k.(phase := Open, writer := Running)
    case Receive(_, frame) => Given(sv, c, k, Message(frame))
    case EndReading(_) => k.(phase := Closed)
    case Leave(_, event) => Announced(sv, c, k.(phase := Gone), event)
    case Reply(_) => Replied(k)
    case Dispatch(_, attempt) =>
      if TaskCrashes(k.todo[0]) && k.phase.Open? then Unwound(k) else Tried(k, PassesAfter(sv, k.todo[0], attempt))
    case PushAck(_) => k.(todo := k.todo[1..])
    case StopWriter(_) => k.(writer := Stopped)
    case Write(_, ok) => Written(k, ok)
  }

  /** The producer confirms the record while the reader waits. */
  ghost predicate ConfirmsNow(sv: Server, task: Task, attempt: Attempt)
    requires task.Do? && task.act.Produce?
  {
    !task.act.dispatcher.Kafka? && Confirms(sv, task.rec, task.act.dispatcher, attempt)
  }

  ghost predicate PassesAfter(sv: Server, task: Task, attempt: Attempt)
    requires task.Do? && task.act.Produce?
  {
    ConfirmsNow(sv, task, attempt) && PassesOn(sv, task.act.dispatcher, task.rec.value.txType)
  }

  /** A dispatch that makes its producer panic passes nothing on. */
  lemma PanicPassesNothing(sv: Server, task: Task, attempt: Attempt)
    requires task.Do? && task.act.Produce? && TaskCrashes(task)
    ensures !ConfirmsNow(sv, task, attempt) && !PassesAfter(sv, task, attempt)
  {
    hide Crashes, Confirms;
    PanicNeverConfirms(sv, task.rec, task.act.dispatcher, attempt);
  }

  /** What a step of a connection does outside of it. */
  ghost function EffectAt(sv: Server, s: State, l: Label): (r: State)
    requires AtSocket(l) && Enabled(s, l)
    ensures r.sockets == s.sockets
  {
    var k := s.sockets[l.c];
    match l
    case Leave(c, _) => s.(calls := s.calls + [SocketRegistry.Deregister(Handle(c, k))])
    case Dispatch(_, attempt) =>
      var task := k.todo[0];
      if task.act.dispatcher.Kafka? then
        if attempt.ok then s.(kafkaPending := s.kafkaPending + multiset{task.rec}) else s
      else if ConfirmsNow(sv, task, attempt) then
        s.(confirmed := s.confirmed + [Confirmation(task.rec, task.act.dispatcher, attempt)])
      else s
    case PushAck(_) => s.(ackLoop := Holding(k.todo[0].rec))
    case _ => s
  }

  ghost function Next(sv: Server, s: State, l: Label): (r: State)
    requires Enabled(s, l)
  {
    if AtSocket(l) then
      EffectAt(sv, s, l).(sockets := s.sockets[l.c := StepAt(sv, l.c, s.sockets[l.c], l)])
    else match l
      case Connect(uuid, identity, event) =>
        var c, k := |s.sockets|, NewSocket(uuid, identity);
        s.(sockets := s.sockets + [Announced(sv, c, k, event)],
           calls := s.calls + [SocketRegistry.Register(Handle(c, k))])
      case KafkaReport(rec, ok) =>
        var reported := s.(kafkaPending := s.kafkaPending - multiset{rec});
        if !ok then reported
        else reported.(confirmed := s.confirmed + [Confirmation(rec, Kafka, Plain(true))],
                       kafkaLoop := if PassesOn(sv, Kafka, rec.value.txType) then Some(rec) else None)
      case KafkaPush => s.(ackLoop := Holding(s.kafkaLoop.value), kafkaLoop := None)
      case Lookup =>
        var rec := s.ackLoop.rec;
        var found := SocketRegistry.Find(Registered(s), rec.value.socketId);
        if found.Some? then
          var route := Route(rec, found.value.id, |s.sockets|);
          s.(ackLoop := Sending(route), ackCount := s.ackCount + 1, routed := s.routed + [route])
        else s.(ackLoop := Waiting, missCount := s.missCount + 1, missed := s.missed + [rec])
      case Deliver =>
        var t := s.ackLoop.route.target;
        s.(ackLoop := Waiting, delivered := s.delivered + [s.ackLoop.route],
           sockets := s.sockets[t := Enqueued(s.sockets[t], Response(s.ackLoop.route.rec, true))])
  }

  // ---------------------------------------------------------------- what a step changes

  ghost predicate IsOwnStep(sv: Server, c: nat, k: Socket, k': Socket, l: Label) {
    AtSocket(l) && l.c == c && EnabledAt(k, true, l) && k' == StepAt(sv, c, k, l)
  }

  ghost predicate IsDelivery(s: State, c: nat, k: Socket, k': Socket, l: Label) {
    && l.Deliver? && s.ackLoop.Sending? && s.ackLoop.route.target == c && |k.queue| < QUEUE_LIMIT
    && k' == Enqueued(k, Response(s.ackLoop.route.rec, true))
  }

  /** A connection changes only by its own steps and by a delivery to it. */
  lemma SocketChanges(sv: Server, s: State, l: Label, c: nat)
    requires Enabled(s, l) && c < |Next(sv, s, l).sockets|
    ensures c < |s.sockets| ==>
              var k, k' := s.sockets[c], Next(sv, s, l).sockets[c];
              k' == k || IsOwnStep(sv, c, k, k', l) || IsDelivery(s, c, k, k', l)
    ensures c >= |s.sockets| ==>
              && l.Connect? && c == |s.sockets| && IsEvent(NewSocket(l.uuid, l.identity), l.event)
              && Next(sv, s, l).sockets[c] == Announced(sv, c, NewSocket(l.uuid, l.identity), l.event)
    ensures |s.sockets| <= |Next(sv, s, l).sockets|
  {
    hide StepAt, Announced, Enqueued, Confirms;
  }

  // ---------------------------------------------------------------- runs

  /** A step that was taken, and the state it led to. */
  datatype Moment = Moment(step: Label, state: State)

  /** The state a run leads to. */
  function After(run: seq<Moment>): (s: State) {
    if run == [] then INITIAL else run[|run| - 1].state
  }

  /** The `i`th step was allowed, and led where it had to. */
  ghost predicate Stepped(sv: Server, run: seq<Moment>, i: int)
    requires 0 <= i < |run|
  {
    var before := After(run[..i]);
    Enabled(before, run[i].step) && run[i].state == Next(sv, before, run[i].step)
  }

  /** A run of the server: steps in any order the guards allow. */
  ghost predicate IsRun(sv: Server, run: seq<Moment>) {
    forall i :: 0 <= i < |run| ==> Stepped(sv, run, i)
  }

  lemma PrefixIsRun(sv: Server, run: seq<Moment>, n: nat)
    requires IsRun(sv, run) && n <= |run|
    ensures IsRun(sv, run[..n])
  {
    hide Enabled, Next;
    forall i | 0 <= i < n
      ensures Stepped(sv, run[..n], i)
    {
      assert Stepped(sv, run, i);
      assert run[..n][..i] == run[..i];
    }
  }

  /** A run that is not empty is a shorter run and a step. */
  lemma LastStep(sv: Server, run: seq<Moment>)
    requires IsRun(sv, run) && run != []
    ensures var before, l := run[..|run| - 1], run[|run| - 1].step;
            IsRun(sv, before) && Enabled(After(before), l) && After(run) == Next(sv, After(before), l)
  {
    hide Enabled, Next;
    PrefixIsRun(sv, run, |run| - 1);
    assert Stepped(sv, run, |run| - 1);
  }

  /** A run and one more step. */
  ghost function Longer(sv: Server, run: seq<Moment>, l: Label): (r: seq<Moment>)
    requires Enabled(After(run), l)
  {
    run + [Moment(l, Next(sv, After(run), l))]
  }

  lemma Extend(sv: Server, run: seq<Moment>, l: Label)
    requires IsRun(sv, run) && Enabled(After(run), l)
    ensures IsRun(sv, Longer(sv, run, l)) && After(Longer(sv, run, l)) == Next(sv, After(run), l)
  {
    hide Enabled, Next;
    var longer := Longer(sv, run, l);
    forall i | 0 <= i < |longer|
      ensures Stepped(sv, longer, i)
    {
      assert longer[..i] == run[..i];
      assert i < |run| ==> Stepped(sv, run, i);
    }
    assert longer[..|run|] == run;
  }
}
