/** Publishing a record to the Redis channels that are subscribed to its vehicle. */
module RedisProducer {
  import opened GoTypes

  /** A member of the sorted set of subscribers: a channel and when its lease expires, in epoch seconds. */
  datatype Member = Member(channel: string, expiry: int)

  datatype Config = Config(namespace: string, publishVinTopics: bool, subscriberSetPrefix: string, ackedTypes: set<string>)

  /** The parts of a record the producer looks at; `size` is the length of its payload. */
  datatype Entry = Entry(txType: string, vin: string, size: nat)

  /** How Redis answers during one call: the purge, the read, and each publish in turn. */
  datatype Answers = Answers(purge: bool, read: bool, publish: nat -> bool)

  function BuildTopicName(namespace: string, recordName: string): string {
    namespace + "_" + recordName
  }

  function VinChannel(c: Config, e: Entry): (s: string) {
    BuildTopicName(c.namespace, e.txType) + "_{" + e.vin + "}"
  }

  function SetKey(c: Config, e: Entry): (s: string) {
    c.subscriberSetPrefix + "_" + VinChannel(c, e)
  }

  /** The members whose lease has not run out at `now`, in the order of the set. */
  function Live(members: seq<Member>, now: int): (r: seq<Member>)
    ensures forall m :: m in r <==> m in members && m.expiry >= now
  {
    if members == [] then []
    else (if members[0].expiry >= now then [members[0]] else []) + Live(members[1..], now)
  }

  function Channels(members: seq<Member>): (r: seq<string>)
    ensures |r| == |members| && forall i :: 0 <= i < |r| ==> r[i] == members[i].channel
  {
    seq(|members|, i requires 0 <= i < |members| => members[i].channel)
  }

  /** The channels a record goes to: the live subscribers, then the channel of the vehicle itself. */
  function Selected(c: Config, e: Entry, members: seq<Member>, now: int): (r: seq<string>) {
    (if c.subscriberSetPrefix != "" then Channels(Live(members, now)) else [])
    + (if c.publishVinTopics then [VinChannel(c, e)] else [])
  }

  /** How many publishes succeed before the first that fails. */
  function Succeeded(publish: nat -> bool, i: nat, n: nat): (k: nat)
    requires i <= n
    ensures i <= k <= n && (forall j :: i <= j < k ==> publish(j)) && (k < n ==> !publish(k))
    decreases n - i
  {
    if i == n || !publish(i) then i else Succeeded(publish, i + 1, n)
  }

  /** The producer, the sorted sets it purges and the counters it keeps. */
  class Producer {
    const config: Config
    var sets: map<string, seq<Member>>
    var published: seq<string>
    var publishCount: nat
    var publishBytes: nat
    var errorCount: nat
    var acked: seq<Entry>

    constructor (config: Config, sets: map<string, seq<Member>>)
      ensures this.config == config && this.sets == sets
      ensures published == [] && publishCount == publishBytes == errorCount == 0 && acked == []
    {
      this.config, this.sets := config, sets;
      published, publishCount, publishBytes, errorCount, acked := [], 0, 0, 0, [];
    }

    function Members(key: string): seq<Member>
      reads this
    {
      if key in sets then sets[key] else []
    }

    /** Purges the expired members of the set of the record's vehicle and returns the others. */
    method SubscriberChannels(e: Entry, answers: Answers, now: int) returns (r: Outcome<seq<string>>)
      modifies this`sets
      ensures r == if answers.purge && answers.read then Ok(Channels(Live(old(Members(SetKey(config, e))), now))) else Rejected
      ensures sets == if answers.purge && SetKey(config, e) in old(sets)
                      then old(sets)[SetKey(config, e) := Live(old(Members(SetKey(config, e))), now)] else old(sets)
    {
      var setKey := SetKey(config, e);
      if !answers.purge {
        return Rejected;
      }
      if setKey in sets {
        sets := sets[setKey := Live(sets[setKey], now)];
      }
      if !answers.read {
        return Rejected;
      }
      r := Ok(Channels(Members(setKey)));
    }

    method ChannelsForRecord(e: Entry, answers: Answers, now: int) returns (r: Outcome<seq<string>>)
      modifies this`sets
      ensures r == if config.subscriberSetPrefix != "" && !(answers.purge && answers.read) then Rejected
                   else Ok(Selected(config, e, old(Members(SetKey(config, e))), now))
      ensures config.subscriberSetPrefix == "" ==> sets == old(sets)
    {
      var channels: seq<string> := [];
      if config.subscriberSetPrefix != "" {
        var members := SubscriberChannels(e, answers, now);
        if !members.Ok? {
          return Rejected;
        }
        channels := channels + members.value;
        assert channels == members.value;
      }
      if config.publishVinTopics {
        channels := channels + [VinChannel(config, e)];
      }
      assert channels == Selected(config, e, old(Members(SetKey(config, e))), now);
      r := Ok(channels);
    }

    /** Produce: publishes until the first failure, and acknowledges only if there was none. */
    method Produce(e: Entry, answers: Answers, now: int)
      modifies this
      ensures var selected := Selected(config, e, old(Members(SetKey(config, e))), now);
              var reachable := config.subscriberSetPrefix == "" || (answers.purge && answers.read);
              var done := if reachable then Succeeded(answers.publish, 0, |selected|) else 0;
              && published == old(published) + selected[..done]
              && publishCount == old(publishCount) + done
              && publishBytes == old(publishBytes) + done * e.size
              && errorCount == old(errorCount) + (if reachable && done == |selected| then 0 else 1)
              && acked == old(acked) + (if reachable && done == |selected| && e.txType in config.ackedTypes then [e] else [])
    {
      var r := ChannelsForRecord(e, answers, now);
      if !r.Ok? {
        errorCount := errorCount + 1;
        return;
      }
      var ok := PublishAll(e, r.value, answers.publish);
      if ok {
        ProcessReliableAck(e);
      }
    }

    /** Publishes to the channels in turn; false at the first that fails. */
    method PublishAll(e: Entry, channels: seq<string>, publish: nat -> bool) returns (ok: bool)
      modifies this`published, this`publishCount, this`publishBytes, this`errorCount
      ensures var done := Succeeded(publish, 0, |channels|);
              && ok == (done == |channels|)
              && published == old(published) + channels[..done]
              && publishCount == old(publishCount) + done
              && publishBytes == old(publishBytes) + done * e.size
              && errorCount == old(errorCount) + (if ok then 0 else 1)
    {
      var i := 0;
      while i < |channels|
        invariant i <= |channels|
        invariant Succeeded(publish, 0, |channels|) == Succeeded(publish, i, |channels|)
        invariant published == old(published) + channels[..i]
        invariant publishCount == old(publishCount) + i
        invariant publishBytes == old(publishBytes) + i * e.size
        invariant errorCount == old(errorCount)
      {
        if !publish(i) {
          errorCount := errorCount + 1;
          return false;
        }
        published := published + [channels[i]];
        publishCount := publishCount + 1;
        publishBytes := publishBytes + e.size;
        OneMore(i, e.size);
        i := i + 1;
      }
      ok := true;
    }

    method ProcessReliableAck(e: Entry)
      modifies this`acked
      ensures acked == old(acked) + if e.txType in config.ackedTypes then [e] else []
    {
      if e.txType in config.ackedTypes {
        acked := acked + [e];
      }
    }
  }

  lemma OneMore(n: nat, size: nat)
    ensures (n + 1) * size == n * size + size
  {
  }

  /** The whole call succeeds: every selected channel was published to. */
  predicate Published(c: Config, e: Entry, members: seq<Member>, now: int, answers: Answers) {
    && (c.subscriberSetPrefix == "" || (answers.purge && answers.read))
    && Succeeded(answers.publish, 0, |Selected(c, e, members, now)|) == |Selected(c, e, members, now)|
  }

  /** A record counts as published exactly when Redis could be asked who subscribes and no publish failed. */
  lemma PublishedExactly(c: Config, e: Entry, members: seq<Member>, now: int, answers: Answers)
    ensures Published(c, e, members, now, answers) <==>
            && (c.subscriberSetPrefix == "" || (answers.purge && answers.read))
            && forall i :: 0 <= i < |Selected(c, e, members, now)| ==> answers.publish(i)
  {
  }

  /** The channels selected are those of the subscribers whose lease is still running, in order,
      followed by the vehicle's own channel when that is switched on. */
  lemma {:induction false} SelectedAreLive(c: Config, e: Entry, members: seq<Member>, now: int, channel: string)
    ensures channel in Selected(c, e, members, now) <==>
            || (c.subscriberSetPrefix != "" && exists m :: m in members && m.channel == channel && m.expiry >= now)
            || (c.publishVinTopics && channel == VinChannel(c, e))
  {
    var live := Live(members, now);
    if c.subscriberSetPrefix != "" {
      if m :| m in members && m.channel == channel && m.expiry >= now {
        var i :| 0 <= i < |live| && live[i] == m;
        assert Channels(live)[i] == channel;
        assert Selected(c, e, members, now)[i] == channel;
      }
      if channel in Channels(live) {
        var i :| 0 <= i < |live| && Channels(live)[i] == channel;
        assert live[i] in live;
      }
    }
  }

  /** Purging keeps the order of the members it leaves. */
  lemma {:induction false} LiveKeepsOrder(a: seq<Member>, b: seq<Member>, now: int)
    ensures Live(a + b, now) == Live(a, now) + Live(b, now)
  {
    if a == [] {
      assert a + b == b;
    } else {
      assert (a + b)[1..] == a[1..] + b;
      LiveKeepsOrder(a[1..], b, now);
    }
  }

  /** The places of the live members in the set, in order. */
  function Places(members: seq<Member>, now: int): (at: seq<nat>)
    ensures forall k :: 0 <= k < |at| ==> at[k] < |members| && members[at[k]].expiry >= now
    ensures forall j, k :: 0 <= j < k < |at| ==> at[j] < at[k]
  {
    if members == [] then []
    else
      var last := |members| - 1;
      Places(members[..last], now) + if members[last].expiry >= now then [last] else []
  }

  lemma {:induction false} EveryPlace(members: seq<Member>, now: int, i: nat)
    requires i < |members| && members[i].expiry >= now
    ensures i in Places(members, now)
  {
    var last := |members| - 1;
    if i < last {
      EveryPlace(members[..last], now, i);
    }
  }

  lemma OneMoreLive(members: seq<Member>, m: Member, now: int)
    ensures Live(members + [m], now) == Live(members, now) + if m.expiry >= now then [m] else []
  {
    LiveKeepsOrder(members, [m], now);
    assert [m][1..] == [] && Live([], now) == [];
  }

  lemma {:induction false} LiveStands(members: seq<Member>, now: int)
    ensures var live, at := Live(members, now), Places(members, now);
            |live| == |at| && forall k :: 0 <= k < |at| ==> live[k] == members[at[k]]
  {
    hide Live;
    if members == [] {
      NoneLive(now);
    } else {
      var last := |members| - 1;
      var before := members[..last];
      LiveStands(before, now);
      OneMoreLive(before, members[last], now);
      assert members == before + [members[last]];
      assert forall k :: 0 <= k < |Places(before, now)| ==> before[Places(before, now)[k]] == members[Places(before, now)[k]];
    }
  }

  lemma NoneLive(now: int)
    ensures Live([], now) == []
  {
  }

  /** The channels of a record, one by one: those of the members whose lease is still running, each as
      often as it is in the set and in the order of the set, and last the one of the vehicle. */
  lemma SelectedInOrder(c: Config, e: Entry, members: seq<Member>, now: int) returns (at: seq<nat>)
    ensures forall j, k :: 0 <= j < k < |at| ==> at[j] < at[k]
    ensures forall i: nat :: i in at <==> c.subscriberSetPrefix != "" && i < |members| && members[i].expiry >= now
    ensures |Selected(c, e, members, now)| == |at| + if c.publishVinTopics then 1 else 0
    ensures forall k :: 0 <= k < |at| ==> at[k] < |members| && Selected(c, e, members, now)[k] == members[at[k]].channel
    ensures c.publishVinTopics ==>
              Selected(c, e, members, now)[|at|] == c.namespace + "_" + e.txType + "_{" + e.vin + "}"
  {
    at := if c.subscriberSetPrefix != "" then Places(members, now) else [];
    LiveStands(members, now);
    if c.subscriberSetPrefix != "" {
      forall i: nat | i < |members| && members[i].expiry >= now
        ensures i in at
      {
        EveryPlace(members, now, i);
      }
    }
  }

  lemma Tails(a: string, b: string, x: string, y: string)
    requires a + x == b + y && |a| == |b|
    ensures a == b && x == y
  {
    assert a == (a + x)[..|a|] == (b + y)[..|b|] == b;
    assert x == (a + x)[|a|..] == (b + y)[|b|..] == y;
  }

  lemma LastBrace(a: string, x: string, k: nat)
    requires '{' !in x && k < |a + "_{" + x| && (a + "_{" + x)[k] == '{'
    ensures k <= |a| + 1
  {
  }

  lemma NoBraceInside(a: string, b: string, x: string, y: string)
    requires a + "_{" + x == b + "_{" + y && '{' !in x && '{' !in y
    ensures a == b && x == y
  {
    var s, t := a + "_{" + x, b + "_{" + y;
    assert s[|a| + 1] == '{' && t[|b| + 1] == '{';
    LastBrace(a, x, |b| + 1);
    LastBrace(b, y, |a| + 1);
    Tails(a + "_{", b + "_{", x, y);
    Tails(a, b, "_{", "_{");
  }

  /** For one type, vehicles never share a channel, nor a set of subscribers; and not for any two types
      either, as long as no VIN has an opening brace. */
  lemma VehiclesNeverShare(c: Config, e: Entry, f: Entry)
    ensures SetKey(c, e) == c.subscriberSetPrefix + "_" + c.namespace + "_" + e.txType + "_{" + e.vin + "}"
    ensures SetKey(c, e) == SetKey(c, f) <==> VinChannel(c, e) == VinChannel(c, f)
    ensures e.txType == f.txType ==> (VinChannel(c, e) == VinChannel(c, f) <==> e.vin == f.vin)
    ensures '{' !in e.vin && '{' !in f.vin ==>
              (VinChannel(c, e) == VinChannel(c, f) <==> e.txType == f.txType && e.vin == f.vin)
  {
    var head := c.namespace + "_";
    assert SetKey(c, e) == (c.subscriberSetPrefix + "_") + VinChannel(c, e);
    assert SetKey(c, f) == (c.subscriberSetPrefix + "_") + VinChannel(c, f);
    if SetKey(c, e) == SetKey(c, f) {
      Tails(c.subscriberSetPrefix + "_", c.subscriberSetPrefix + "_", VinChannel(c, e), VinChannel(c, f));
    }
    if VinChannel(c, e) == VinChannel(c, f) {
      var a, b := head + e.txType, head + f.txType;
      assert VinChannel(c, e) == (a + "_{" + e.vin) + "}" && VinChannel(c, f) == (b + "_{" + f.vin) + "}";
      Tails(a + "_{" + e.vin, b + "_{" + f.vin, "}", "}");
      if e.txType == f.txType {
        Tails(a + "_{", b + "_{", e.vin, f.vin);
      }
      if '{' !in e.vin && '{' !in f.vin {
        NoBraceInside(a, b, e.vin, f.vin);
        Tails(head, head, e.txType, f.txType);
      }
    }
  }
}
