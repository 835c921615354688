/** The producers as objects do what the steps of the whole server say they do. */
module DeliveryProducers {
  import opened GoTypes
  import opened Dispatchers
  import opened SocketManagers
  import opened Delivery
  import RecordTransforms
  import RedisProducer
  import MqttProducer
  import LoggerProducer

  function EntryOf(rec: Rec): (e: RedisProducer.Entry) {
    RedisProducer.Entry(rec.value.txType, rec.value.vin, |rec.value.payload|)
  }

  /** The Redis producer passes a record on exactly when the dispatch step does, given the same
      answers and the same subscribers. */
  method DispatchToRedis(sv: Server, producer: RedisProducer.Producer, rec: Rec, answers: RedisProducer.Answers, now: int)
    requires WellConfigured(sv) && producer.config == sv.redis
    modifies producer
    ensures var members := old(producer.Members(RedisProducer.SetKey(sv.redis, EntryOf(rec))));
            var passed := PassesAfter(sv, Do(rec, Produce(Redis)), OnRedis(members, now, answers));
            producer.acked == old(producer.acked) + if passed then [EntryOf(rec)] else []
  {
    ghost var members := producer.Members(RedisProducer.SetKey(sv.redis, EntryOf(rec)));
    producer.Produce(EntryOf(rec), answers, now);
    RedisPasses(sv, rec, members, now, answers);
  }

  /** The record is passed on exactly when Redis told who subscribes, every publish succeeded, and
      the type has Redis as its source. */
  lemma RedisPasses(sv: Server, rec: Rec, members: seq<RedisProducer.Member>, now: int, answers: RedisProducer.Answers)
    requires WellConfigured(sv)
    ensures var c := sv.redis;
            var selected := RedisProducer.Selected(c, EntryOf(rec), members, now);
            PassesAfter(sv, Do(rec, Produce(Redis)), OnRedis(members, now, answers)) <==>
            && (c.subscriberSetPrefix == "" || (answers.purge && answers.read))
            && RedisProducer.Succeeded(answers.publish, 0, |selected|) == |selected|
            && rec.value.txType in sv.settings.sources && sv.settings.sources[rec.value.txType] == Redis
    ensures rec.value.txType in sv.redis.ackedTypes <==>
            rec.value.txType in sv.settings.sources && sv.settings.sources[rec.value.txType] == Redis
  {
  }

  /** The MQTT producer panics and confirms exactly when the dispatch step says so. Its client is
      never closed, as its context is never cancelled. */
  method DispatchToMqtt(sv: Server, topicBase: string, fieldName: int -> string, rec: Rec,
                        marshals: nat -> bool, broker: nat -> MqttProducer.Token, lag: nat -> nat)
    returns (confirmed: Outcome<bool>)
    ensures confirmed.Panicked? <==> TaskCrashes(Do(rec, Produce(Mqtt)))
    ensures confirmed == Ok(true) <==> ConfirmsNow(sv, Do(rec, Produce(Mqtt)), OnMqtt(marshals, broker, lag))
  {
    hide MqttProducer.AllTimely, MqttProducer.Prepare;
    var errors;
    confirmed, errors := MqttProducer.Produce(false, rec.value.message, topicBase, rec.value.vin, fieldName, marshals, broker, lag, sv.mqttTimeout);
  }

  /** The logger panics exactly when the dispatch step says so, and confirms nothing. */
  method DispatchToLogger(sv: Server, rec: Rec, known: RecordTransforms.Value -> bool, ghost a: Attempt) returns (logged: Outcome<bool>)
    ensures logged.Panicked? <==> TaskCrashes(Do(rec, Produce(Logger)))
    ensures !ConfirmsNow(sv, Do(rec, Produce(Logger)), a)
  {
    logged := LoggerProducer.Produce(rec.value.message, known, rec.value.vin);
  }

  /** MQTT only ever confirms records of the types that are unmarshalled; any other type with MQTT as
      its source would never be acknowledged. */
  lemma MqttConfirmsMessages(sv: Server, rec: Rec, a: Attempt)
    requires Confirms(sv, rec, Mqtt, a) && rec.value.message.OfType(rec.value.txType)
    ensures rec.value.txType in RecordTransforms.REWRITTEN_TYPES && !Crashes(rec.value, Mqtt)
  {
    MqttProducer.OnlyMessagesConfirm(false, rec.value.message, a.marshals, a.broker, a.lag, sv.mqttTimeout, rec.value.txType);
  }
}
