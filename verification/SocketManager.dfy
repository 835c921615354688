/** What is done about the messages of one connection: which are dispatched, and how each is answered. */
module SocketManagers {
  import opened GoTypes
  import opened Dispatchers
  import opened Serializer
  import ReliableAckConfig
  import RecordTransforms
  import MqttProducer
  import LoggerProducer
  import StreamMessages
  import TeslaMessages

  /** What the configuration says about messages. */
  datatype Settings = Settings(rules: map<string, seq<Dispatcher>>, sources: map<string, Dispatcher>,
                               transmitDecoded: bool, limiterEnabled: bool)

  /** One thing done about a record. */
  datatype Act = Ack | Error | Produce(dispatcher: Dispatcher)

  function Dispatches(rules: map<string, seq<Dispatcher>>, txType: string): (acts: seq<Act>) {
    if txType in rules then seq(|rules[txType]|, i requires 0 <= i < |rules[txType]| => Produce(rules[txType][i])) else []
  }

  /** Whether a message is dispatched and counted: a message of an unknown type is, too. */
  predicate Processed(r: Result) {
    r.error.None? || r.error.value.UnknownMessageType?
  }

  /** Everything ParseAndProcessRecord does about a message, in order. */
  function Plan(s: Settings, r: Result): (acts: seq<Act>) {
    if !Processed(r) then [if r.error.value.UnauthorizedSenderId? then Ack else Error]
    else
      (if r.error.Some? then [Ack] else [])
      + Dispatches(s.rules, r.record.txType)
      + (if r.record.txType in s.sources then [] else [Ack])
  }

  /** Converting the message of the record makes the producer panic, and with it the reader. */
  predicate Crashes(record: RecordValue, d: Dispatcher) {
    match d
    case Mqtt => MqttProducer.Crashes(record.message)
    case Logger => LoggerProducer.Crashes(record.message, record.vin)
    case _ => false
  }

  predicate CrashesAct(record: RecordValue, act: Act) {
    act.Produce? && Crashes(record, act.dispatcher)
  }

  /** None of the acts makes a producer panic. */
  predicate Survives(record: RecordValue, acts: seq<Act>) {
    forall i :: 0 <= i < |acts| ==> !CrashesAct(record, acts[i])
  }

  /** The acts that are begun: all of them, or those up to the first that panics. */
  function Reached(record: RecordValue, acts: seq<Act>): (r: seq<Act>)
    ensures r <= acts
    ensures Survives(record, acts) ==> r == acts
    ensures !Survives(record, acts) ==> r != [] && CrashesAct(record, r[|r| - 1]) && Survives(record, r[..|r| - 1])
  {
    if acts == [] then []
    else if CrashesAct(record, acts[0]) then [acts[0]]
    else [acts[0]] + Reached(record, acts[1..])
  }

  /** A websocket message, whether the rate limiter let it pass, and when it arrived. */
  datatype Frame = Frame(binary: bool, data: Slice, admitted: bool, now: int)

  /** One connection, as far as its messages are concerned. */
  datatype Connection = Connection(settings: Settings, context: Context, codec: Codec, uuid: string) {
    function Parse(f: Frame): (r: Result) {
      RecordFor(context, codec, f.data, uuid, settings.transmitDecoded, f.now)
    }

    predicate Dropped(f: Frame) {
      !f.admitted && settings.limiterEnabled
    }

    /** What one frame calls for. */
    function Acts(f: Frame): (acts: seq<Act>) {
      if Dropped(f) then [] else Plan(settings, Parse(f))
    }

    /** What is done about it. */
    function Begun(f: Frame): (acts: seq<Act>) {
      Reached(Parse(f).record, Acts(f))
    }
  }

  /** The processing of a frame panics. */
  predicate Panics(c: Connection, f: Frame) {
    !Survives(c.Parse(f).record, c.Acts(f))
  }

  // ---------------------------------------------------------------- the object

  datatype SocketMessage = SocketMessage(txid: string, bytes: Bytes)

  /** What leaves the reader: a message for the writer, or a record for a producer. */
  datatype Effect = Sent(message: SocketMessage) | Produced(record: RecordValue, dispatcher: Dispatcher)

  function EffectOf(record: RecordValue, act: Act): (e: Effect) {
    match act
    case Ack => Sent(SocketMessage(record.txid, AckOf(record)))
    case Error => Sent(SocketMessage(record.txid, ErrorOf(record)))
    case Produce(d) => Produced(record, d)
  }

  function Carried(record: RecordValue, acts: seq<Act>): (effects: seq<Effect>)
    ensures |effects| == |acts|
  {
    seq(|acts|, i requires 0 <= i < |acts| => EffectOf(record, acts[i]))
  }

  lemma ReachedFrom(record: RecordValue, acts: seq<Act>)
    requires acts != []
    ensures Reached(record, acts) == [acts[0]] + if CrashesAct(record, acts[0]) then [] else Reached(record, acts[1..])
  {
    hide Crashes;
  }

  lemma {:induction false} ReachedUpTo(record: RecordValue, acts: seq<Act>, i: nat)
    requires i < |acts| && Survives(record, acts[..i]) && CrashesAct(record, acts[i])
    ensures Reached(record, acts) == acts[..i + 1] && !Survives(record, acts)
  {
    if i > 0 {
      assert acts[..i][0] == acts[0] && acts[1..][..i - 1] == acts[..i][1..];
      ReachedUpTo(record, acts[1..], i - 1);
    }
  }

  /** Acknowledgements around dispatches: the one before is always begun, the one after only if no
      dispatch panics. */
  lemma ReachedAround(record: RecordValue, first: seq<Act>, dispatches: seq<Act>, last: seq<Act>)
    requires (first == [] || first == [Ack]) && (last == [] || last == [Ack])
    ensures var acts := first + dispatches + last;
            && (Survives(record, acts) <==> Survives(record, dispatches))
            && Reached(record, acts) == if Survives(record, dispatches) then acts else first + Reached(record, dispatches)
  {
    hide Crashes, Reached, Survives, CrashesAct;
    AnswersSurvive(record, first, last);
    SurvivesBoth(record, first, dispatches);
    SurvivesBoth(record, first + dispatches, last);
    if !Survives(record, dispatches) {
      var acts, r := first + dispatches + last, Reached(record, dispatches);
      var i := |first| + |r| - 1;
      SurvivesBoth(record, first, r[..|r| - 1]);
      assert acts[i] == r[|r| - 1] && acts[..i] == first + r[..|r| - 1];
      ReachedUpTo(record, acts, i);
      assert acts[..i + 1] == first + r;
    }
  }

  lemma SurvivesBoth(record: RecordValue, a: seq<Act>, b: seq<Act>)
    ensures Survives(record, a + b) <==> Survives(record, a) && Survives(record, b)
  {
    hide CrashesAct;
    assert forall i :: 0 <= i < |a| ==> (a + b)[i] == a[i];
    assert forall i :: 0 <= i < |b| ==> (a + b)[|a| + i] == b[i];
  }

  lemma AnswersSurvive(record: RecordValue, first: seq<Act>, last: seq<Act>)
    requires (first == [] || first == [Ack]) && (last == [] || last == [Ack])
    ensures Survives(record, first) && Survives(record, last)
  {
    hide Crashes;
  }

  lemma ReachedPlan(record: RecordValue, before: bool, dispatches: seq<Act>, after: bool)
    ensures var first, last := if before then [Ack] else [], if after then [Ack] else [];
            var acts := first + dispatches + last;
            && (Survives(record, acts) <==> Survives(record, dispatches))
            && Carried(record, Reached(record, acts)) ==
               Carried(record, first) + Carried(record, Reached(record, dispatches))
               + if Survives(record, dispatches) then Carried(record, last) else []
  {
    hide Crashes, EffectOf, Reached;
    var first, last := if before then [Ack] else [], if after then [Ack] else [];
    ReachedAround(record, first, dispatches, last);
    if Survives(record, dispatches) {
      CarriedPlan(record, first, dispatches, last);
    } else {
      CarriedPlan(record, first, Reached(record, dispatches), []);
      assert first + Reached(record, dispatches) + [] == first + Reached(record, dispatches);
    }
  }

  /** What the plan for a message amounts to. */
  lemma PlanEffects(s: Settings, r: Result)
    ensures var plan, dispatches := Plan(s, r), Dispatches(s.rules, r.record.txType);
            if Processed(r) then
              && (Survives(r.record, plan) <==> Survives(r.record, dispatches))
              && Carried(r.record, Reached(r.record, plan)) ==
                 Carried(r.record, if r.error.Some? then [Ack] else []) + Carried(r.record, Reached(r.record, dispatches))
                 + if Survives(r.record, dispatches) && r.record.txType !in s.sources then Carried(r.record, [Ack]) else []
            else Survives(r.record, plan) && Reached(r.record, plan) == [if r.error.value.UnauthorizedSenderId? then Ack else Error]
  {
    hide Carried, Dispatches, Reached, Survives;
    AnswerSurvivesReached(r.record, Ack);
    AnswerSurvivesReached(r.record, Error);
    ReachedPlan(r.record, r.error.Some?, Dispatches(s.rules, r.record.txType), r.record.txType !in s.sources);
    CarriedPlan(r.record, [], [], []);
  }

  lemma CarriedPlan(record: RecordValue, a: seq<Act>, b: seq<Act>, c: seq<Act>)
    ensures Carried(record, a + b + c) == Carried(record, a) + Carried(record, b) + Carried(record, c)
    ensures Carried(record, []) == []
  {
    hide EffectOf;
  }

  lemma NothingDispatched(record: RecordValue, acts: seq<Act>)
    ensures Carried(record, acts[..0]) == [] && Survives(record, acts[..0])
  {
  }

  lemma CarriedOneMore(record: RecordValue, acts: seq<Act>, i: nat)
    requires i < |acts|
    ensures Carried(record, acts[..i + 1]) == Carried(record, acts[..i]) + [EffectOf(record, acts[i])]
  {
    hide EffectOf;
  }

  lemma OneMoreDispatch(record: RecordValue, acts: seq<Act>, i: nat)
    requires i < |acts| && acts[i].Produce? && Survives(record, acts[..i])
    ensures Carried(record, acts[..i + 1]) == Carried(record, acts[..i]) + [Produced(record, acts[i].dispatcher)]
    ensures !Crashes(record, acts[i].dispatcher) ==> Survives(record, acts[..i + 1])
  {
    hide Crashes, Carried, AckOf, ErrorOf;
    CarriedOneMore(record, acts, i);
    assert forall k :: 0 <= k < i ==> acts[..i + 1][k] == acts[..i][k];
  }

  function FrameEffects(c: Connection, f: Frame): (effects: seq<Effect>) {
    Carried(c.Parse(f).record, c.Begun(f))
  }

  function EffectsOf(c: Connection, frames: seq<Frame>): (effects: seq<Effect>) {
    if frames == [] then []
    else EffectsOf(c, frames[..|frames| - 1]) + FrameEffects(c, frames[|frames| - 1])
  }

  type Stats = map<string, nat>

  function Counted(stats: Stats, txType: string, size: nat): (r: Stats) {
    stats[txType := (if txType in stats then stats[txType] else 0) + size]
  }

  function FrameStats(c: Connection, stats: Stats, f: Frame): (r: Stats) {
    var parsed := c.Parse(f);
    if !c.Dropped(f) && Processed(parsed) then Counted(stats, parsed.record.txType, |parsed.record.payload|) else stats
  }

  function StatsOf(c: Connection, frames: seq<Frame>): (r: Stats) {
    if frames == [] then map[] else FrameStats(c, StatsOf(c, frames[..|frames| - 1]), frames[|frames| - 1])
  }

  /** How many frames are read: those before the first that is not binary, and none after one whose
      processing panics. */
  function Readable(c: Connection, frames: seq<Frame>): (n: nat)
    ensures n <= |frames|
  {
    if frames == [] || !frames[0].binary then 0
    else if Panics(c, frames[0]) then 1
    else 1 + Readable(c, frames[1..])
  }

  lemma NoFrames(c: Connection, frames: seq<Frame>)
    ensures EffectsOf(c, frames[..0]) == [] && StatsOf(c, frames[..0]) == map[] && TrailingDropped(c, frames[..0]) == 0
  {
  }

  lemma OneMoreFrame(c: Connection, frames: seq<Frame>, i: nat)
    requires i < |frames|
    ensures EffectsOf(c, frames[..i + 1]) == EffectsOf(c, frames[..i]) + FrameEffects(c, frames[i])
    ensures StatsOf(c, frames[..i + 1]) == FrameStats(c, StatsOf(c, frames[..i]), frames[i])
    ensures TrailingDropped(c, frames[..i + 1]) == if c.Dropped(frames[i]) then 1 + TrailingDropped(c, frames[..i]) else 0
  {
    hide FrameEffects, FrameStats;
    assert frames[..i + 1][..i] == frames[..i];
  }

  lemma {:induction false} ReadableStops(c: Connection, frames: seq<Frame>)
    ensures var n := Readable(c, frames);
            && (forall i :: 0 <= i < n ==> frames[i].binary) && (forall i :: 0 <= i < n - 1 ==> !Panics(c, frames[i]))
            && (n < |frames| ==> !frames[n].binary || (n > 0 && Panics(c, frames[n - 1])))
  {
    hide Panics;
    if frames != [] && frames[0].binary && !Panics(c, frames[0]) {
      ReadableStops(c, frames[1..]);
    }
  }

  lemma {:induction false} ReadableIs(c: Connection, frames: seq<Frame>, n: nat)
    requires n <= |frames| && (forall i :: 0 <= i < n ==> frames[i].binary) && (forall i :: 0 <= i < n - 1 ==> !Panics(c, frames[i]))
    requires n < |frames| ==> !frames[n].binary || (n > 0 && Panics(c, frames[n - 1]))
    ensures Readable(c, frames) == n
  {
    hide Panics;
    if n > 0 && !Panics(c, frames[0]) {
      ReadableIs(c, frames[1..], n - 1);
    }
  }

  /** How many frames at the end of the list were dropped. */
  function TrailingDropped(c: Connection, frames: seq<Frame>): (n: nat)
    ensures n <= |frames| && forall i :: |frames| - n <= i < |frames| ==> !frames[i].admitted && c.settings.limiterEnabled
    ensures n < |frames| ==> frames[|frames| - 1 - n].admitted || !c.settings.limiterEnabled
  {
    if frames == [] || !c.Dropped(frames[|frames| - 1]) then 0 else 1 + TrailingDropped(c, frames[..|frames| - 1])
  }

  class SocketManager {
    const connection: Connection
    var recordsStats: Stats
    var effects: seq<Effect>

    constructor (connection: Connection)
      ensures this.connection == connection && recordsStats == map[] && effects == []
    {
      this.connection := connection;
      recordsStats, effects := map[], [];
    }

    method ReportMetricBytesPerRecords(recordType: string, byteSize: nat)
      modifies this`recordsStats
      ensures recordsStats == Counted(old(recordsStats), recordType, byteSize)
    {
      var before := if recordType in recordsStats then recordsStats[recordType] else 0;
      recordsStats := recordsStats[recordType := before + byteSize];
    }

    method RespondToVehicle(record: Record, failed: bool)
      modifies this`effects
      ensures effects == old(effects) + Carried(record.Value(), [if failed then Error else Ack])
    {
      hide AckOf, ErrorOf;
      var response := if failed then ErrorOf(record.Value()) else AckOf(record.Value());
      effects := effects + [Sent(SocketMessage(record.txid, response))];
    }

    method ReliableAck(record: Record) returns (ok: bool)
      ensures ok <==> record.Value().txType in connection.settings.sources
    {
      ok := record.txType in connection.settings.sources;
    }

    /** Record.Dispatch: the record goes to every producer listed for its type, in order, up to the
        first that panics. */
    method ProcessRecord(record: Record) returns (panicked: bool)
      modifies this`effects
      ensures var dispatches := Dispatches(connection.settings.rules, record.Value().txType);
              && effects == old(effects) + Carried(record.Value(), Reached(record.Value(), dispatches))
              && (panicked <==> !Survives(record.Value(), dispatches))
    {
      hide Carried, EffectOf, Crashes, Reached, Survives;
      ghost var value := record.Value();
      ghost var all := Dispatches(connection.settings.rules, record.txType);
      var producers := if record.txType in connection.settings.rules then connection.settings.rules[record.txType] else [];
      NothingDispatched(value, all);
      for i := 0 to |producers|
        invariant effects == old(effects) + Carried(value, all[..i])
        invariant Survives(value, all[..i])
      {
        OneMoreDispatch(value, all, i);
        effects := effects + [Produced(record.Value(), producers[i])];
        if Crashes(record.Value(), producers[i]) {
          ReachedUpTo(value, all, i);
          return true;
        }
      }
      assert all[..|producers|] == all;
      panicked := false;
    }

    /** What ParseAndProcessRecord does with the record it has parsed. */
    method ProcessParsed(record: Record, err: Option<RecordError>) returns (panicked: bool)
      modifies this`effects, this`recordsStats
      ensures var r := Result(record.Value(), err);
              && effects == old(effects) + Carried(r.record, Reached(r.record, Plan(connection.settings, r)))
              && recordsStats == (if Processed(r) then Counted(old(recordsStats), r.record.txType, |r.record.payload|) else old(recordsStats))
              && (panicked <==> !Survives(r.record, Plan(connection.settings, r)))
    {
      hide Carried, Dispatches, Counted, Reached, Survives, Plan;
      ghost var value := record.Value();
      PlanEffects(connection.settings, Result(value, err));
      if err.Some? {
        if err.value.MessageTooBig? {
          RespondToVehicle(record, true);
          return false;
        }
        if err.value.UnauthorizedSenderId? {
          RespondToVehicle(record, false);
          return false;
        } else if err.value.UnknownMessageType? {
          RespondToVehicle(record, false);
        } else {
          RespondToVehicle(record, true);
          return false;
        }
      }
      ReportMetricBytesPerRecords(record.txType, |record.payload|);
      ghost var dispatches := Dispatches(connection.settings.rules, record.txType);
      panicked := ProcessRecord(record);
      var reliable := ReliableAck(record);
      if !panicked && !reliable {
        RespondToVehicle(record, false);
      }
      assert Carried(value, []) == [] by { CarriedPlan(value, [], [], []); }
    }

    /** ParseAndProcessRecord. */
    method ParseAndProcessRecord(serializer: BinarySerializer, message: Slice, now: int) returns (panicked: bool)
      requires serializer.context == connection.context
      modifies this`effects, this`recordsStats
      ensures var f := Frame(true, message, true, now);
              && effects == old(effects) + FrameEffects(connection, f)
              && recordsStats == FrameStats(connection, old(recordsStats), f)
              && (panicked <==> Panics(connection, f))
    {
      hide RecordFor, Carried, Plan, Processed, Counted, Reached, Survives;
      var record, err := serializer.NewRecord(connection.codec, message, connection.uuid, connection.settings.transmitDecoded, now);
      panicked := ProcessParsed(record, err);
    }

    /** One round of the reading loop: a frame over the limit is dropped if the limiter is enabled. */
    method ProcessFrame(serializer: BinarySerializer, frame: Frame, rateLimited: nat) returns (messagesRateLimited: nat, panicked: bool)
      requires serializer.context == connection.context
      modifies this`effects, this`recordsStats
      ensures effects == old(effects) + FrameEffects(connection, frame)
      ensures recordsStats == FrameStats(connection, old(recordsStats), frame)
      ensures messagesRateLimited == if connection.Dropped(frame) then 1 + rateLimited else 0
      ensures panicked <==> Panics(connection, frame)
    {
      hide FrameEffects, FrameStats, Panics;
      messagesRateLimited := rateLimited;
      AdmittedAlike(connection, frame, recordsStats);
      if !frame.admitted {
        messagesRateLimited := messagesRateLimited + 1;
        if connection.settings.limiterEnabled {
          return messagesRateLimited, false;
        }
      }
      if messagesRateLimited > 0 {
        messagesRateLimited := 0;
      }
      panicked := ParseAndProcessRecord(serializer, frame.data, frame.now);
    }

    /** ProcessTelemetry: reads frames until one is not binary, one makes a producer panic, or the
        client is gone. */
    method ProcessTelemetry(serializer: BinarySerializer, incoming: seq<Frame>) returns (messagesRateLimited: nat, panicked: bool)
      requires serializer.context == connection.context && recordsStats == map[]
      modifies this`effects, this`recordsStats
      ensures var frames := incoming[..Readable(connection, incoming)];
              && effects == old(effects) + EffectsOf(connection, frames)
              && recordsStats == StatsOf(connection, frames)
              && messagesRateLimited == TrailingDropped(connection, frames)
              && (panicked <==> frames != [] && Panics(connection, frames[|frames| - 1]))
    {
      hide FrameEffects, FrameStats, Panics, Readable, EffectsOf, StatsOf, TrailingDropped;
      NoFrames(connection, incoming);
      messagesRateLimited, panicked := 0, false;
      var i := 0;
      while i < |incoming| && incoming[i].binary && !panicked
        invariant i <= |incoming| && forall k :: 0 <= k < i ==> incoming[k].binary
        invariant forall k :: 0 <= k < i - 1 ==> !Panics(connection, incoming[k])
        invariant panicked <==> i > 0 && Panics(connection, incoming[i - 1])
        invariant effects == old(effects) + EffectsOf(connection, incoming[..i])
        invariant recordsStats == StatsOf(connection, incoming[..i])
        invariant messagesRateLimited == TrailingDropped(connection, incoming[..i])
      {
        var frame := incoming[i];
        OneMoreFrame(connection, incoming, i);
        messagesRateLimited, panicked := ProcessFrame(serializer, incoming[i], messagesRateLimited);
        i := i + 1;
      }
      ReadableIs(connection, incoming, i);
    }

    /** RecordsStatsToLogInfo: the statistics with their total beside them. */
    method RecordsStatsToLogInfo() returns (logInfo: map<string, int>)
      ensures logInfo == recordsStats["total" := Sum(recordsStats)]
    {
      logInfo := map[];
      var total := 0;
      var todo := recordsStats.Keys;
      assert Left(recordsStats, todo) == recordsStats;
      while todo != {}
        invariant todo <= recordsStats.Keys
        invariant logInfo == recordsStats - todo
        invariant total + Sum(Left(recordsStats, todo)) == Sum(recordsStats)
      {
        var key :| key in todo;
        SumAt(Left(recordsStats, todo), key);
        assert Left(recordsStats, todo) - {key} == Left(recordsStats, todo - {key});
        logInfo := logInfo[key := recordsStats[key]];
        total := total + recordsStats[key];
        todo := todo - {key};
      }
      logInfo := logInfo["total" := total];
    }
  }

  /** A frame that is dropped has no effect; any other has the same effect however the limiter judged it. */
  lemma AdmittedAlike(c: Connection, f: Frame, stats: Stats)
    ensures c.Dropped(f) ==> FrameEffects(c, f) == [] && FrameStats(c, stats, f) == stats
    ensures !c.Dropped(f) ==> FrameEffects(c, f) == FrameEffects(c, Frame(true, f.data, true, f.now))
                              && FrameStats(c, stats, f) == FrameStats(c, stats, Frame(true, f.data, true, f.now))
    ensures Panics(c, f) <==> !c.Dropped(f) && Panics(c, Frame(true, f.data, true, f.now))
  {
    hide RecordFor, Plan, Processed, Crashes;
  }

  // ---------------------------------------------------------------- the statistics

  ghost function Left(stats: Stats, todo: set<string>): (r: Stats) {
    map k | k in todo && k in stats :: stats[k]
  }

  ghost function Sum(stats: Stats): (n: nat) {
    if stats == map[] then 0
    else
      var k :| k in stats;
      stats[k] + Sum(stats - {k})
  }

  /** The sum does not depend on the order the map is walked in. */
  lemma {:induction false} SumAt(stats: Stats, k: string)
    requires k in stats
    ensures Sum(stats) == stats[k] + Sum(stats - {k})
    decreases |stats|
  {
    var j :| j in stats && Sum(stats) == stats[j] + Sum(stats - {j});
    if j != k {
      SumAt(stats - {j}, k);
      SumAt(stats - {k}, j);
      assert stats - {j} - {k} == stats - {k} - {j};
    }
  }

  /** The payload bytes of the processed messages, of one type or of all. */
  function PayloadBytes(c: Connection, frames: seq<Frame>, txType: Option<string>): (n: nat) {
    if frames == [] then 0
    else
      var f := frames[|frames| - 1];
      var parsed := c.Parse(f);
      PayloadBytes(c, frames[..|frames| - 1], txType)
      + if (f.admitted || !c.settings.limiterEnabled) && (parsed.error.None? || parsed.error.value.UnknownMessageType?) && (txType.None? || txType.value == parsed.record.txType) then |parsed.record.payload| else 0
  }

  /** The statistics hold, by type and in total, the payload bytes of all processed messages. */
  lemma {:induction false} StatsArePayloadBytes(c: Connection, frames: seq<Frame>, txType: string)
    ensures var stats := StatsOf(c, frames);
            && (if txType in stats then stats[txType] else 0) == PayloadBytes(c, frames, Some(txType))
            && Sum(stats) == PayloadBytes(c, frames, None)
  {
    hide RecordFor;
    if frames != [] {
      var before, f := frames[..|frames| - 1], frames[|frames| - 1];
      StatsArePayloadBytes(c, before, txType);
      var parsed := c.Parse(f);
      if !c.Dropped(f) && Processed(parsed) {
        CountedAdds(StatsOf(c, before), parsed.record.txType, |parsed.record.payload|);
      }
    }
  }

  lemma CountedAdds(stats: Stats, txType: string, size: nat)
    ensures Sum(Counted(stats, txType, size)) == Sum(stats) + size
  {
    var after := Counted(stats, txType, size);
    SumAt(after, txType);
    if txType in stats {
      SumAt(stats, txType);
      assert after - {txType} == stats - {txType};
    } else {
      assert after - {txType} == stats;
    }
  }

  // ---------------------------------------------------------------- accounting

  function Count(acts: seq<Act>, act: Act): (n: nat) {
    multiset(acts)[act]
  }

  /** The producers the acts hand the record to, in order. */
  function Dispatched(acts: seq<Act>): (r: seq<Dispatcher>) {
    if acts == [] then []
    else Dispatched(acts[..|acts| - 1]) + match acts[|acts| - 1] case Produce(d) => [d] case _ => []
  }

  function Rule(s: Settings, txType: string): (r: seq<Dispatcher>) {
    if txType in s.rules then s.rules[txType] else []
  }

  lemma {:induction false} DispatchedRule(rule: seq<Dispatcher>, acts: seq<Act>)
    requires |acts| == |rule| && forall i :: 0 <= i < |acts| ==> acts[i] == Produce(rule[i])
    ensures Dispatched(acts) == rule && Ack !in acts && Error !in acts
  {
    if acts != [] {
      DispatchedRule(rule[..|rule| - 1], acts[..|acts| - 1]);
    }
  }

  lemma {:induction false} DispatchedJoins(a: seq<Act>, b: seq<Act>)
    ensures Dispatched(a + b) == Dispatched(a) + Dispatched(b)
  {
    if b == [] {
      assert a + b == a;
    } else {
      assert (a + b)[..|a + b| - 1] == a + b[..|b| - 1];
      DispatchedJoins(a, b[..|b| - 1]);
    }
  }

  lemma PlanCounts(s: Settings, r: Result)
    requires Processed(r)
    ensures var acts := Plan(s, r);
            && Dispatched(acts) == Rule(s, r.record.txType) && Count(acts, Error) == 0
            && Count(acts, Ack) == (if r.error.Some? then 1 else 0) + if r.record.txType in s.sources then 0 else 1
  {
    var dispatches := Dispatches(s.rules, r.record.txType);
    DispatchedRule(Rule(s, r.record.txType), dispatches);
    Surrounded(r.error.Some?, dispatches, r.record.txType !in s.sources);
  }

  lemma CountJoins(a: seq<Act>, b: seq<Act>, act: Act)
    ensures Count(a + b, act) == Count(a, act) + Count(b, act)
  {
  }

  lemma CountOne(acts: seq<Act>, present: bool)
    requires acts == if present then [Ack] else []
    ensures Count(acts, Ack) == (if present then 1 else 0) && Count(acts, Error) == 0 && Dispatched(acts) == []
  {
    assert [Ack][..0] == [];
  }

  /** Dispatches with an acknowledgement before them, after them, or both. */
  lemma Surrounded(before: bool, dispatches: seq<Act>, after: bool)
    requires Ack !in dispatches && Error !in dispatches
    ensures var acts := (if before then [Ack] else []) + dispatches + (if after then [Ack] else []);
            && Dispatched(acts) == Dispatched(dispatches) && Count(acts, Error) == 0
            && Count(acts, Ack) == (if before then 1 else 0) + if after then 1 else 0
  {
    assert Count(dispatches, Ack) == Count(dispatches, Error) == 0;
    hide Count, Dispatched;
    var first, last := if before then [Ack] else [], if after then [Ack] else [];
    CountOne(first, before);
    CountOne(last, after);
    DispatchedJoins(first, dispatches);
    DispatchedJoins(first + dispatches, last);
    CountJoins(first, dispatches, Ack);
    CountJoins(first, dispatches, Error);
    CountJoins(first + dispatches, last, Ack);
    CountJoins(first + dispatches, last, Error);
  }

  /** A vehicle is told of an accepted message only after every producer has been given its record;
      only a message of an unknown type is acknowledged before it is dispatched, too. */
  lemma AckComesLast(s: Settings, r: Result, i: nat)
    requires Processed(r) && i < |Plan(s, r)| && Plan(s, r)[i].Ack?
    ensures i == |Plan(s, r)| - 1 || (i == 0 && r.error.Some?)
  {
    var before := if r.error.Some? then [Ack] else [];
    var dispatches := Dispatches(s.rules, r.record.txType);
    if |before| <= i < |before| + |dispatches| {
      assert Plan(s, r)[i] == dispatches[i - |before|];
    }
  }

  /** A message of an unknown type makes no producer panic: it has no message to convert. */
  lemma OnlyAcceptedPanic(c: Connection, f: Frame)
    requires Panics(c, f)
    ensures !c.Dropped(f) && c.Parse(f).error.None?
    ensures var r := c.Parse(f);
            var dispatches := Dispatches(c.settings.rules, r.record.txType);
            && !Survives(r.record, dispatches) && c.Begun(f) == Reached(r.record, dispatches)
  {
    hide RecordFor, Reached, Unmarshalled, Crashes, Survives, IsMessage, Dispatches;
    var r := c.Parse(f);
    assert r == RecordFor(c.context, c.codec, f.data, c.uuid, c.settings.transmitDecoded, f.now);
    RecordMessage(c.context, c.codec, f.data, c.uuid, c.settings.transmitDecoded, f.now);
    NothingToPanic(r.record, c.Acts(f));
    if r.error.None? {
      var last := if r.record.txType in c.settings.sources then [] else [Ack];
      ReachedAround(r.record, [], Dispatches(c.settings.rules, r.record.txType), last);
    } else if !Processed(r) {
      AnswerSurvives(r.record, c.Acts(f)[0]);
    }
  }

  lemma NothingToPanic(record: RecordValue, acts: seq<Act>)
    ensures acts == [] || record.message.NoMessage? ==> Survives(record, acts)
  {
  }

  lemma AnswerSurvivesReached(record: RecordValue, act: Act)
    requires !act.Produce?
    ensures Survives(record, [act]) && Reached(record, [act]) == [act]
  {
  }

  lemma AnswerSurvives(record: RecordValue, act: Act)
    ensures !act.Produce? ==> Survives(record, [act])
  {
  }

  /** What makes the processing of a frame panic, stated on the message in it: it is let in and
      accepted, its type is that of signals, and either MQTT is among the producers of the type and
      some signal has no value, or the logger is, some signal tells where tires are, and the id of
      the device is shorter than four characters. */
  lemma PanicsExactly(c: Connection, f: Frame)
    ensures Panics(c, f) <==>
            && !c.Dropped(f) && c.Parse(f).error.None? && c.Parse(f).record.txType == "V"
            && StreamMessages.FromBytes(f.data).Ok?
            && var signals := c.codec.signals(StreamMessages.FromBytes(f.data).value.fields.payload);
               && signals.Some?
               && ((Mqtt in Rule(c.settings, "V") && RecordTransforms.LacksValue(signals.value))
                   || (Logger in Rule(c.settings, "V") && RecordTransforms.HasTires(signals.value) && |c.context.identity.deviceId| < 4))
  {
    hide RecordFor, Reached, StreamMessages.FromBytes, Crashes, IsMessage, Unmarshalled, Survives;
    hide RecordTransforms.LacksValue, RecordTransforms.HasTires;
    var r := c.Parse(f);
    assert r == RecordFor(c.context, c.codec, f.data, c.uuid, c.settings.transmitDecoded, f.now);
    RecordMessage(c.context, c.codec, f.data, c.uuid, c.settings.transmitDecoded, f.now);
    if Panics(c, f) {
      OnlyAcceptedPanic(c, f);
    }
    if !c.Dropped(f) && r.error.None? {
      AcceptedPanics(c, f);
      MessageCrashes(c.codec, r.record, StreamMessages.FromBytes(f.data).value.fields.payload);
    }
  }

  lemma AcceptedPanics(c: Connection, f: Frame)
    requires !c.Dropped(f) && c.Parse(f).error.None?
    ensures var record := c.Parse(f).record;
            Panics(c, f) <==>
            || (Mqtt in Rule(c.settings, record.txType) && Crashes(record, Mqtt))
            || (Logger in Rule(c.settings, record.txType) && Crashes(record, Logger))
  {
    hide RecordFor, Reached, Crashes, Rule;
    var r := c.Parse(f);
    var dispatches := Dispatches(c.settings.rules, r.record.txType);
    var last := if r.record.txType in c.settings.sources then [] else [Ack];
    ReachedAround(r.record, [], dispatches, last);
    DispatchPanics(c.settings, r.record);
    hide Dispatches, Survives;
  }

  /** Whether a record with the message of this payload makes a producer panic. */
  lemma MessageCrashes(codec: Codec, record: RecordValue, payload: Bytes)
    requires IsMessage(codec, record, payload)
    ensures record.txType == "V" ==> codec.signals(payload).Some?
    ensures Crashes(record, Mqtt) <==> record.txType == "V" && RecordTransforms.LacksValue(codec.signals(payload).value)
    ensures Crashes(record, Logger) <==>
            record.txType == "V" && RecordTransforms.HasTires(codec.signals(payload).value) && |record.vin| < 4
  {
    hide RecordTransforms.LacksValue, RecordTransforms.HasTires, RecordTransforms.Normalise;
    if record.txType == "V" {
      RecordTransforms.NormaliseKeepsKinds(codec.signals(payload).value, codec.location, codec.number);
    }
  }

  /** Some dispatch of the record panics exactly if one of its producers does. */
  lemma DispatchPanics(s: Settings, record: RecordValue)
    ensures !Survives(record, Dispatches(s.rules, record.txType)) <==>
            (Mqtt in Rule(s, record.txType) && Crashes(record, Mqtt)) || (Logger in Rule(s, record.txType) && Crashes(record, Logger))
  {
    hide MqttProducer.Crashes, LoggerProducer.Crashes;
    var rule, dispatches := Rule(s, record.txType), Dispatches(s.rules, record.txType);
    if Mqtt in rule {
      var i :| 0 <= i < |rule| && rule[i] == Mqtt;
      assert dispatches[i] == Produce(Mqtt);
    }
    if Logger in rule {
      var i :| 0 <= i < |rule| && rule[i] == Logger;
      assert dispatches[i] == Produce(Logger);
    }
    forall i | 0 <= i < |dispatches|
      ensures dispatches[i] == Produce(rule[i]) && rule[i] in rule
    {
    }
  }

  /** What becomes of each frame, for every content it may have. A frame the enabled limiter
      rejects is dropped. One that is too big or cannot be parsed for a reason other than its type
      is answered with one error and dispatched to no one. An accepted one goes to each producer
      of its type once, and is acknowledged at once exactly if its type has no source of reliable
      acknowledgements; unless a producer panics, in which case it goes to the producers up to that
      one and is not acknowledged. One that is no stream message is acknowledged, and then treated
      as an accepted message of the empty type. */
  lemma FrameAccounting(c: Connection, f: Frame)
    ensures var acts, r, s := c.Begun(f), c.Parse(f), c.settings;
            if !f.admitted && s.limiterEnabled then acts == []
            else if r.error.None? then
              && StreamMessages.FromBytes(f.data).Ok?
              && r.record.txType == ToString(StreamMessages.FromBytes(f.data).value.fields.topic)
              && Count(acts, Error) == 0
              && if Panics(c, f) then
                   && acts != [] && Count(acts, Ack) == 0 && |acts| <= |Rule(s, r.record.txType)|
                   && Dispatched(acts) == Rule(s, r.record.txType)[..|acts|]
                   && Crashes(r.record, Rule(s, r.record.txType)[|acts| - 1])
                   && forall i :: 0 <= i < |acts| - 1 ==> !Crashes(r.record, Rule(s, r.record.txType)[i])
                 else
                   && Dispatched(acts) == Rule(s, r.record.txType)
                   && Count(acts, Ack) == if r.record.txType in s.sources then 0 else 1
            else if |f.data.bytes| <= MESSAGE_LIMIT && StreamMessages.FromBytes(f.data).Rejected? then
              && Dispatched(acts) == Rule(s, "") && Count(acts, Error) == 0
              && Count(acts, Ack) == if "" in s.sources then 1 else 2
            else acts == [Error]
  {
    hide RecordFor, Dispatched, Count, StreamMessages.FromBytes, Guessed, Reached, Crashes;
    var r := c.Parse(f);
    assert r == RecordFor(c.context, c.codec, f.data, c.uuid, c.settings.transmitDecoded, f.now);
    EveryMessageIsClassified(c.context, c.codec, f.data, c.uuid, c.settings.transmitDecoded, f.now);
    ParsedTypes(c, f);
    if Panics(c, f) {
      OnlyAcceptedPanic(c, f);
      PanicCounts(c.settings, r.record);
    } else {
      if Processed(r) {
        PlanCounts(c.settings, r);
      }
    }
  }

  lemma PanicCounts(s: Settings, record: RecordValue)
    requires !Survives(record, Dispatches(s.rules, record.txType))
    ensures var rule := Rule(s, record.txType);
            var acts := Reached(record, Dispatches(s.rules, record.txType));
            && acts != [] && |acts| <= |rule| && Count(acts, Error) == 0 && Count(acts, Ack) == 0
            && Dispatched(acts) == rule[..|acts|] && Crashes(record, rule[|acts| - 1])
            && forall i :: 0 <= i < |acts| - 1 ==> !Crashes(record, rule[i])
  {
    hide Crashes;
    var rule, dispatches := Rule(s, record.txType), Dispatches(s.rules, record.txType);
    var acts := Reached(record, dispatches);
    assert forall i :: 0 <= i < |acts| ==> acts[i] == dispatches[i] == Produce(rule[i]);
    DispatchedRule(rule[..|acts|], acts);
    forall i | 0 <= i < |acts| - 1
      ensures !Crashes(record, rule[i])
    {
      assert acts[..|acts| - 1][i] == Produce(rule[i]);
    }
  }

  lemma ParsedTypes(c: Connection, f: Frame)
    ensures var r := c.Parse(f);
            && (r.error.None? ==> (StreamMessages.FromBytes(f.data).Ok?
                  && r.record.txType == ToString(StreamMessages.FromBytes(f.data).value.fields.topic)))
            && (|f.data.bytes| <= MESSAGE_LIMIT && StreamMessages.FromBytes(f.data).Rejected? ==>
                  r.error.Some? && r.error.value.UnknownMessageType? && r.record.txType == "")
  {
    hide StreamMessages.FromBytes, Deserialized, Authorized, Unmarshalled, RecordTransforms.Normalised;
    var r := c.Parse(f);
    EveryMessageIsClassified(c.context, c.codec, f.data, c.uuid, c.settings.transmitDecoded, f.now);
    if r.error.None? {
      AcceptedExactly(c.context, c.codec, f.data, c.uuid, c.settings.transmitDecoded, f.now);
      DeserializedKeepsFields(c.context, f.data, c.uuid, f.now, []);
    }
    if StreamMessages.FromBytes(f.data).Rejected? {
      OtherTypesAreUnknown(c.context, f.data, c.uuid, f.now);
    }
  }

  /** The bytes received are an acknowledgement, or an error response, of this transaction. */
  predicate Answers(received: Slice, txid: Bytes) {
    var ack, error := StreamMessages.AckFromBytes(received), StreamMessages.FromBytes(received);
    (ack.Ok? && ack.value.txid == txid) || (error.Ok? && error.value.fields.txid == txid)
  }

  /** What the vehicle reads when it is answered, for every message and every answer. One that is
      accepted, or is no stream message, is acknowledged: the bytes parse as an acknowledgement of its
      record and not as a stream message. Any other gets the error response: a stream message with the
      txid of its record and nothing but the complaint, and no acknowledgement. */
  lemma AnswerBytes(c: Connection, f: Frame, i: nat, spare: Spare)
    requires i < |FrameEffects(c, f)| && FrameEffects(c, f)[i].Sent?
    ensures var r, sent := c.Parse(f), FrameEffects(c, f)[i].message;
            var ack, error := StreamMessages.AckFromBytes(Slice(sent.bytes, spare)), StreamMessages.FromBytes(Slice(sent.bytes, spare));
            && sent.txid == r.record.txid
            && if r.error.None? || r.error.value.UnknownMessageType? then
                 && ack.Ok? && ack.value.txid == ToBytes(r.record.txid) && ack.value.topic == ToBytes(r.record.txType)
                 && error == Rejected
               else
                 && error.Ok? && ack == Rejected
                 && error.value.fields == TeslaMessages.Fields([], [], ToBytes(r.record.txid), ToBytes("incorrect message format"), 0, [], [], [], 0)
  {
    hide StreamMessages.FromBytes, StreamMessages.AckFromBytes, RecordFor, AckOf, ErrorOf, Reached;
    var r := c.Parse(f);
    assert r == RecordFor(c.context, c.codec, f.data, c.uuid, c.settings.transmitDecoded, f.now);
    EveryMessageIsClassified(c.context, c.codec, f.data, c.uuid, c.settings.transmitDecoded, f.now);
    RecordSmall(c.context, c.codec, f.data, c.uuid, c.settings.transmitDecoded, f.now);
    ResponsesAreDistinct(r.record, spare);
    assert c.Begun(f)[i] in c.Acts(f);
  }

  /** Whatever a reader sends about a message that names a transaction answers that transaction if
      and only if the message is not too big, has a union field and does not make the parser panic;
      any other answer is anonymous. */
  lemma AnswersExactly(c: Connection, f: Frame, txid: Bytes, i: nat, spare: Spare)
    requires Names(f.data, txid) && i < |FrameEffects(c, f)| && FrameEffects(c, f)[i].Sent?
    ensures var received := Slice(FrameEffects(c, f)[i].message.bytes, spare);
            && (Answers(received, txid) <==> Recognised(f.data))
            && (!Recognised(f.data) ==> Answers(received, []))
  {
    hide StreamMessages.FromBytes, StreamMessages.AckFromBytes, RecordFor, AckOf, ErrorOf, Names, Recognised, Plan, Reached;
    ResponsesNameExactly(c.context, c.codec, f.data, c.uuid, c.settings.transmitDecoded, f.now, txid, spare);
    RecordNames(c.context, c.codec, f.data, c.uuid, c.settings.transmitDecoded, f.now, txid);
    ResponsesAreDistinct(c.Parse(f).record, spare);
    NamesSomething(f.data, txid);
  }

  lemma NamesSomething(msg: Slice, txid: Bytes)
    requires Names(msg, txid)
    ensures txid != []
  {
    hide StreamMessages.FromBytes;
  }

  /** The vehicle is answered, or the record is in the hands of the producer that will see to it. */
  predicate TakenCareOf(c: Connection, f: Frame) {
    var acts, r := c.Begun(f), c.Parse(f);
    Ack in acts || Error in acts
    || (r.record.txType in c.settings.sources
        && var source := c.settings.sources[r.record.txType];
           Produce(source) in acts && !Crashes(r.record, source))
  }

  /** Under an accepted configuration a message that is let in is forgotten exactly if one of its
      producers panics before its source of reliable acknowledgements, if it has one, has been given
      the record. */
  lemma NothingIsForgotten(c: Connection, f: Frame)
    requires !c.Dropped(f)
    requires forall t <- c.settings.sources :: ReliableAckConfig.ValidSource(c.settings.rules, t, c.settings.sources[t])
    ensures var txType, n := c.Parse(f).record.txType, |c.Begun(f)|;
            TakenCareOf(c, f) <==>
            (Panics(c, f) ==>
               && txType in c.settings.sources
               && exists i :: 0 <= i < n - 1 && i < |Rule(c.settings, txType)| && Rule(c.settings, txType)[i] == c.settings.sources[txType])
  {
    hide RecordFor, Reached, Crashes;
    if Panics(c, f) {
      OnlyAcceptedPanic(c, f);
      PanickedCare(c.settings, c.Parse(f).record);
    } else {
      CalmCare(c, f);
    }
  }

  lemma CalmCare(c: Connection, f: Frame)
    requires !c.Dropped(f) && !Panics(c, f)
    requires forall t <- c.settings.sources :: ReliableAckConfig.ValidSource(c.settings.rules, t, c.settings.sources[t])
    ensures TakenCareOf(c, f)
  {
    hide RecordFor, Reached, Crashes, Plan, Survives, Dispatches;
    var r := c.Parse(f);
    assert c.Begun(f) == Plan(c.settings, r);
    CalmPlan(c.settings, r);
    if r.record.txType in c.settings.sources && Produce(c.settings.sources[r.record.txType]) in Plan(c.settings, r) {
      DispatchSurvives(r.record, Plan(c.settings, r), c.settings.sources[r.record.txType]);
    }
  }

  lemma DispatchSurvives(record: RecordValue, acts: seq<Act>, d: Dispatcher)
    requires Survives(record, acts) && Produce(d) in acts
    ensures !Crashes(record, d)
  {
    hide Crashes;
    var i :| 0 <= i < |acts| && acts[i] == Produce(d);
    assert !CrashesAct(record, acts[i]);
  }

  /** The plan has an answer, or a dispatch to the source of the type. */
  lemma CalmPlan(s: Settings, r: Result)
    requires forall t <- s.sources :: ReliableAckConfig.ValidSource(s.rules, t, s.sources[t])
    ensures Ack in Plan(s, r) || Error in Plan(s, r)
            || (r.error.None? && r.record.txType in s.sources && Produce(s.sources[r.record.txType]) in Plan(s, r))
  {
    var acts := Plan(s, r);
    if Processed(r) && r.error.None? && r.record.txType in s.sources {
      var rule := s.rules[r.record.txType];
      var i :| 0 <= i < |rule| && rule[i] == s.sources[r.record.txType];
      assert acts == Dispatches(s.rules, r.record.txType) && acts[i] == Produce(rule[i]);
    } else if Processed(r) {
      assert r.record.txType !in s.sources ==> acts[|acts| - 1] == Ack;
      assert r.error.Some? ==> acts[0] == Ack;
    } else {
      assert acts[0] == Ack || acts[0] == Error;
    }
  }

  lemma PanickedCare(s: Settings, record: RecordValue)
    requires !Survives(record, Dispatches(s.rules, record.txType))
    ensures var acts, rule := Reached(record, Dispatches(s.rules, record.txType)), Rule(s, record.txType);
            && Ack !in acts && Error !in acts
            && (record.txType in s.sources ==>
                  var source := s.sources[record.txType];
                  (Produce(source) in acts && !Crashes(record, source) <==>
                   exists i :: 0 <= i < |acts| - 1 && i < |rule| && rule[i] == source))
  {
    hide Reached, Crashes;
    PanicCounts(s, record);
    var rule, dispatches := Rule(s, record.txType), Dispatches(s.rules, record.txType);
    var acts := Reached(record, dispatches);
    assert forall i :: 0 <= i < |acts| ==> acts[i] == dispatches[i] == Produce(rule[i]);
  }
}
