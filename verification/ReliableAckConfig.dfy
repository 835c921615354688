/** Which data store acknowledges which record type, and which producers a record type is sent to. */
module ReliableAckConfig {
  import opened Dispatchers

  const CONNECTIVITY := "connectivity"

  type Records = map<string, seq<Dispatcher>>
  type Sources = map<string, Dispatcher>

  datatype ConfigError =
    | AckNotNeeded(txType: string)
    | LoggerCannotAck(txType: string)
    | NoRecordMapping(txType: string)
    | NotAmongDatastores(txType: string)
    | NotConfigured(dispatcher: Dispatcher)
    | NoDispatchRule(txType: string)

  datatype Result<+T> = Success(value: T) | Failure(error: ConfigError)

  // ---------------------------------------------------------------- reliable acknowledgements

  /** An entry of ReliableAckSources the configuration accepts. */
  predicate ValidSource(records: Records, txType: string, d: Dispatcher) {
    txType != CONNECTIVITY && d != Logger && txType in records && d in records[txType]
  }

  /** The error an entry is refused with, given what is wrong with it first. */
  predicate IsRefusal(records: Records, sources: Sources, e: ConfigError) {
    && (e.AckNotNeeded? || e.LoggerCannotAck? || e.NoRecordMapping? || e.NotAmongDatastores?)
    && e.txType in sources
    && var d := sources[e.txType];
       e == if e.txType == CONNECTIVITY then AckNotNeeded(e.txType)
            else if d == Logger then LoggerCannotAck(e.txType)
            else if e.txType !in records then NoRecordMapping(e.txType)
            else NotAmongDatastores(e.txType)
  }

  /** The types each dispatcher acknowledges: the inverse of the sources. */
  function Inverse(sources: Sources): (r: map<Dispatcher, set<string>>)
    ensures forall d :: d in r <==> exists t :: t in sources && sources[t] == d
    ensures forall d :: d in r ==> r[d] == set t | t in sources && sources[t] == d
  {
    map d | d in sources.Values :: set t | t in sources && sources[t] == d
  }

  /** parseValidDispatchers. */
  method ParseValidDispatchers(input: seq<Dispatcher>) returns (result: seq<Dispatcher>)
    ensures result == WithoutLogger(input)
  {
    result := [];
    for i := 0 to |input|
      invariant WithoutLogger(input) == result + WithoutLogger(input[i..])
    {
      assert input[i..] == [input[i]] + input[i + 1..];
      if input[i] != Logger {
        result := result + [input[i]];
      }
    }
  }

  /** The dispatchers other than the logger, in order. */
  function WithoutLogger(input: seq<Dispatcher>): (r: seq<Dispatcher>)
    ensures forall d :: d in r <==> d in input && d != Logger
  {
    if input == [] then []
    else (if input[0] == Logger then [] else [input[0]]) + WithoutLogger(input[1..])
  }

  /** configureReliableAckSources. A map is walked in no particular order, so which of several bad
      entries is reported is open; whether the configuration is accepted is not. */
  method ConfigureReliableAckSources(records: Records, sources: Sources) returns (r: Result<map<Dispatcher, set<string>>>)
    ensures r.Success? <==> forall t <- sources :: ValidSource(records, t, sources[t])
    ensures r.Success? ==> r.value == Inverse(sources)
    ensures r.Failure? ==> IsRefusal(records, sources, r.error) && !ValidSource(records, r.error.txType, sources[r.error.txType])
  {
    var acks: map<Dispatcher, set<string>> := map[];
    var todo := sources.Keys;
    while todo != {}
      invariant todo <= sources.Keys
      invariant forall t <- sources :: t !in todo ==> ValidSource(records, t, sources[t])
      invariant acks == Inverse(sources - todo)
    {
      var txType :| txType in todo;
      var dispatchRule := sources[txType];
      if txType == CONNECTIVITY {
        return Failure(AckNotNeeded(txType));
      }
      if dispatchRule == Logger {
        return Failure(LoggerCannotAck(txType));
      }
      if txType !in records {
        return Failure(NoRecordMapping(txType));
      }
      var found := false;
      var validDispatchers := ParseValidDispatchers(records[txType]);
      var i := 0;
      while i < |validDispatchers| && !found
        invariant i <= |validDispatchers|
        invariant found ==> dispatchRule in validDispatchers
        invariant !found ==> dispatchRule !in validDispatchers[..i]
        invariant acks == if found then Added(Inverse(sources - todo), dispatchRule, txType) else Inverse(sources - todo)
      {
        if validDispatchers[i] == dispatchRule {
          found := true;
          if dispatchRule !in acks {
            acks := acks[dispatchRule := {}];
          }
          acks := acks[dispatchRule := acks[dispatchRule] + {txType}];
        }
        i := i + 1;
      }
      if !found {
        return Failure(NotAmongDatastores(txType));
      }
      InverseGrows(sources, todo, txType);
      todo := todo - {txType};
    }
    assert sources - todo == sources;
    r := Success(acks);
  }

  function Added(acks: map<Dispatcher, set<string>>, d: Dispatcher, txType: string): (r: map<Dispatcher, set<string>>) {
    acks[d := (if d in acks then acks[d] else {}) + {txType}]
  }

  lemma InverseGrows(sources: Sources, todo: set<string>, txType: string)
    requires txType in todo && txType in sources
    ensures Inverse(sources - (todo - {txType})) == Added(Inverse(sources - todo), sources[txType], txType)
  {
    var before, after := sources - todo, sources - (todo - {txType});
    assert after == before[txType := sources[txType]];
    var l, r := Inverse(after), Added(Inverse(before), sources[txType], txType);
    forall d
      ensures d in l <==> d in r
      ensures d in l && d in r ==> l[d] == r[d]
    {
      assert after[txType] == sources[txType];
      if d in before.Values {
        var t :| t in before && before[t] == d;
        assert after[t] == d;
      }
    }
  }

  /** Accepted sources: each reliable type is acknowledged by exactly one dispatcher, which is one
      of those the type is dispatched to, and no other type is acknowledged by anyone. */
  lemma OneSourcePerType(records: Records, sources: Sources, txType: string, d: Dispatcher)
    requires forall t <- sources :: ValidSource(records, t, sources[t])
    ensures var acks := Inverse(sources);
            (d in acks && txType in acks[d]) <==> (txType in sources && sources[txType] == d)
    ensures var acks := Inverse(sources);
            d in acks && txType in acks[d] ==> txType in records && d in records[txType] && txType != "connectivity" && d != Logger
  {
  }

  // ---------------------------------------------------------------- dispatch rules

  /** What ConfigureProducers hands to the server: the rules by record type and, for each
      producer, the types it acknowledges. */
  datatype Producers = Producers(rules: Records, acks: map<Dispatcher, set<string>>)

  /** The data stores, in the order they are set up. */
  const STORES: seq<Dispatcher> := [Kafka, Pubsub, Kinesis, Zmq, Mqtt, Redis]

  lemma AllStores(d: Dispatcher)
    ensures d == Logger || d in STORES
  {
    assert STORES[0] == Kafka && STORES[1] == Pubsub && STORES[2] == Kinesis;
    assert STORES[3] == Zmq && STORES[4] == Mqtt && STORES[5] == Redis;
  }

  predicate Buildable(records: Records, available: set<Dispatcher>) {
    forall t <- records :: records[t] != [] && forall d <- records[t] :: d == Logger || d in available
  }

  /** An error ConfigureProducers reports is really there. */
  ghost predicate IsFault(records: Records, sources: Sources, available: set<Dispatcher>, e: ConfigError) {
    match e
    case NotConfigured(d) => d != Logger && d !in available && exists t :: t in records && d in records[t]
    case NoDispatchRule(t) => t in records && records[t] == []
    case _ => IsRefusal(records, sources, e) && !ValidSource(records, e.txType, sources[e.txType])
  }

  /** ConfigureProducers, where `available` are the data stores that are configured and answer.
      The logger always exists. */
  method ConfigureProducers(records: Records, sources: Sources, available: set<Dispatcher>) returns (r: Result<Producers>)
    ensures r.Success? <==> (forall t <- sources :: ValidSource(records, t, sources[t])) && Buildable(records, available)
    ensures r.Success? ==> r.value == Producers(records, Inverse(sources))
    ensures r.Failure? ==> IsFault(records, sources, available, r.error)
  {
    var acks := ConfigureReliableAckSources(records, sources);
    if acks.Failure? {
      return Failure(acks.error);
    }

    var required: set<Dispatcher> := {};
    var todo := records.Keys;
    while todo != {}
      invariant todo <= records.Keys
      invariant forall d :: d in required <==> exists t :: t in records && t !in todo && d in records[t]
    {
      var recordName :| recordName in todo;
      required := required + set d | d in records[recordName];
      todo := todo - {recordName};
    }

    var producers := {Logger};
    var stores := STORES;
    for i := 0 to |stores|
      invariant producers == {Logger} + set d | d in required && d in stores[..i]
      invariant forall d <- stores[..i] :: d in required ==> d in available
    {
      if stores[i] in required {
        if stores[i] !in available {
          Missing(records, available, stores[i]);
          return Failure(NotConfigured(stores[i]));
        }
        producers := producers + {stores[i]};
      }
      assert stores[..i + 1] == stores[..i] + [stores[i]];
    }

    var rules: Records := map[];
    todo := records.Keys;
    while todo != {}
      invariant todo <= records.Keys
      invariant rules == records - todo
      invariant forall t <- rules :: rules[t] != []
    {
      var recordName :| recordName in todo;
      var dispatchFuncs := [];
      for i := 0 to |records[recordName]|
        invariant dispatchFuncs == records[recordName][..i]
      {
        dispatchFuncs := dispatchFuncs + [records[recordName][i]];
      }
      assert dispatchFuncs == records[recordName];
      rules := rules[recordName := dispatchFuncs];
      if |rules[recordName]| == 0 {
        return Failure(NoDispatchRule(recordName));
      }
      todo := todo - {recordName};
    }
    assert records - todo == records;
    forall t, d | t in records && d in records[t]
      ensures d == Logger || d in available
    {
      assert d in required;
      AllStores(d);
      assert stores[..|stores|] == stores;
    }
    r := Success(Producers(rules, acks.value));
  }

  lemma Missing(records: Records, available: set<Dispatcher>, d: Dispatcher)
    requires d != Logger && d !in available && exists t :: t in records && d in records[t]
    ensures !Buildable(records, available)
  {
  }
}
