/** Publishing a record to MQTT: alerts grouped by name, signals by field, and one time budget
    for all the publishes of a record. */
module MqttProducer {
  import opened GoTypes
  import opened RecordTransforms

  // ---------------------------------------------------------------- alerts

  /** AsTime, in nanoseconds. */
  function Instant(t: Timestamp): int {
    t.seconds * 1_000_000_000 + t.nanos
  }

  /** The alerts of one name, in the order of the list. */
  function OfName(alerts: seq<Alert>, name: string): (r: seq<Alert>) {
    if alerts == [] then []
    else OfName(alerts[..|alerts| - 1], name)
         + if alerts[|alerts| - 1].name == name then [alerts[|alerts| - 1]] else []
  }

  predicate StartedOf(a: Alert, name: string) {
    a.name == name && a.startedAt.Some?
  }

  /** `alerts[i]` is the first in list order among the alerts of `name` that started last. */
  ghost predicate FirstLatest(alerts: seq<Alert>, name: string, i: int) {
    && 0 <= i < |alerts| && StartedOf(alerts[i], name)
    && forall j :: 0 <= j < |alerts| && StartedOf(alerts[j], name) ==>
                     !Later(alerts[j], alerts[i]) && (j < i ==> Later(alerts[i], alerts[j]))
  }

  predicate Later(a: Alert, b: Alert)
    requires a.startedAt.Some? && b.startedAt.Some?
  {
    Instant(a.startedAt.value) > Instant(b.startedAt.value)
  }

  ghost predicate IsCurrent(alerts: seq<Alert>, name: string, a: Alert) {
    exists i :: FirstLatest(alerts, name, i) && alerts[i] == a
  }

  ghost predicate IsHistory(alerts: seq<Alert>, history: map<string, seq<Alert>>) {
    && (forall n :: n in history <==> exists a :: a in alerts && a.name == n)
    && forall n :: n in history ==> history[n] == OfName(alerts, n)
  }

  ghost predicate IsCurrentState(alerts: seq<Alert>, current: map<string, Alert>) {
    && (forall n :: n in current <==> exists a :: a in alerts && StartedOf(a, n))
    && forall n :: n in current ==> IsCurrent(alerts, n, current[n])
  }

  /** The first loop of processVehicleAlerts. */
  method GatherAlerts(alerts: seq<Alert>) returns (history: map<string, seq<Alert>>, current: map<string, Alert>)
    ensures IsHistory(alerts, history) && IsCurrentState(alerts, current)
  {
    history, current := map[], map[];
    for i := 0 to |alerts|
      invariant IsHistory(alerts[..i], history) && IsCurrentState(alerts[..i], current)
    {
      hide IsCurrent, OfName;
      var alert := alerts[i];
      assert alerts[..i + 1] == alerts[..i] + [alert];
      HistoryGrows(alerts[..i], alert, history);
      history := history[alert.name := (if alert.name in history then history[alert.name] else []) + [alert]];
      if alert.startedAt.Some? {
        StartedAreStarted(alerts[..i], current);
        if alert.name !in current || Later(alert, current[alert.name]) {
          LaterAlertTakesOver(alerts[..i], alert, current);
          current := current[alert.name := alert];
        } else {
          EarlierAlertsStay(alerts[..i], alert, current);
        }
      } else {
        EarlierAlertsStay(alerts[..i], alert, current);
      }
    }
    assert alerts[..|alerts|] == alerts;
  }

  lemma StartedAreStarted(alerts: seq<Alert>, current: map<string, Alert>)
    requires IsCurrentState(alerts, current)
    ensures forall n :: n in current ==> StartedOf(current[n], n)
  {
    forall n | n in current
      ensures StartedOf(current[n], n)
    {
      assert IsCurrent(alerts, n, current[n]);
    }
  }

  lemma OneMoreOfName(before: seq<Alert>, alert: Alert, name: string)
    ensures OfName(before + [alert], name) == OfName(before, name) + if alert.name == name then [alert] else []
  {
    assert (before + [alert])[..|before|] == before;
  }

  lemma HistoryGrows(before: seq<Alert>, alert: Alert, history: map<string, seq<Alert>>)
    requires IsHistory(before, history)
    ensures IsHistory(before + [alert], history[alert.name := (if alert.name in history then history[alert.name] else []) + [alert]])
  {
    hide OfName;
    NoneOfName(before, alert.name);
    assert forall a :: a in before + [alert] <==> a in before || a == alert;
    forall n | n in history || n == alert.name
      ensures OfName(before + [alert], n) == OfName(before, n) + if alert.name == n then [alert] else []
    {
      OneMoreOfName(before, alert, n);
    }
  }

  lemma {:induction false} NoneOfName(alerts: seq<Alert>, name: string)
    ensures (forall a <- alerts :: a.name != name) ==> OfName(alerts, name) == []
  {
    if alerts != [] {
      NoneOfName(alerts[..|alerts| - 1], name);
    }
  }

  lemma LaterAlertTakesOver(before: seq<Alert>, alert: Alert, current: map<string, Alert>)
    requires IsCurrentState(before, current) && alert.startedAt.Some?
    requires alert.name in current ==> current[alert.name].startedAt.Some? && Later(alert, current[alert.name])
    ensures IsCurrentState(before + [alert], current[alert.name := alert])
  {
    var after, updated := before + [alert], current[alert.name := alert];
    assert forall a :: a in after <==> a in before || a == alert;
    forall n | n in updated
      ensures IsCurrent(after, n, updated[n])
    {
      if n == alert.name {
        if n in current {
          var i :| FirstLatest(before, n, i) && before[i] == current[n];
        } else {
          assert forall a <- before :: !StartedOf(a, n);
        }
        assert FirstLatest(after, n, |before|);
      } else {
        Unaffected(before, alert, n, current[n]);
      }
    }
  }

  lemma EarlierAlertsStay(before: seq<Alert>, alert: Alert, current: map<string, Alert>)
    requires IsCurrentState(before, current)
    requires alert.startedAt.Some? ==>
               alert.name in current && current[alert.name].startedAt.Some? && !Later(alert, current[alert.name])
    ensures IsCurrentState(before + [alert], current)
  {
    var after := before + [alert];
    assert forall a :: a in after <==> a in before || a == alert;
    forall n | n in current
      ensures IsCurrent(after, n, current[n])
    {
      Unaffected(before, alert, n, current[n]);
    }
  }

  lemma Unaffected(before: seq<Alert>, alert: Alert, name: string, now: Alert)
    requires IsCurrent(before, name, now)
    requires StartedOf(alert, name) ==> now.startedAt.Some? && !Later(alert, now)
    ensures IsCurrent(before + [alert], name, now)
  {
    var i :| FirstLatest(before, name, i) && before[i] == now;
    assert FirstLatest(before + [alert], name, i);
  }

  /** There is at most one current alert of a name. */
  lemma CurrentIsUnique(alerts: seq<Alert>, name: string, i: int, j: int)
    requires FirstLatest(alerts, name, i) && FirstLatest(alerts, name, j)
    ensures i == j
  {
  }

  /** `alerts[i]` started, and no alert of the name started later; of those that started with it, it
      is the first in the list. */
  ghost predicate StartedLast(alerts: seq<Alert>, name: string, i: nat) {
    && i < |alerts| && alerts[i].name == name && alerts[i].startedAt.Some?
    && forall j :: 0 <= j < |alerts| && alerts[j].name == name && alerts[j].startedAt.Some? ==>
                     var s, t := alerts[j].startedAt.value, alerts[i].startedAt.value;
                     var behind := (t.seconds - s.seconds) * 1_000_000_000 + (t.nanos - s.nanos);
                     behind > 0 || (behind == 0 && i <= j)
  }

  /** What the current alert of a name is, by the start times themselves. */
  lemma CurrentStartedLast(alerts: seq<Alert>, name: string, a: Alert)
    ensures IsCurrent(alerts, name, a) <==> exists i: nat :: StartedLast(alerts, name, i) && alerts[i] == a
  {
    forall i: nat
      ensures FirstLatest(alerts, name, i) <==> StartedLast(alerts, name, i)
    {
    }
  }

  /** With nanoseconds in their range, the order is that of seconds and then nanoseconds. */
  lemma CurrentBySeconds(alerts: seq<Alert>, name: string, a: Alert, j: nat)
    requires IsCurrent(alerts, name, a) && forall b <- alerts :: b.startedAt.Some? ==> 0 <= b.startedAt.value.nanos < 1_000_000_000
    requires j < |alerts| && alerts[j].name == name && alerts[j].startedAt.Some?
    ensures a.startedAt.Some? && a.name == name
    ensures var s, t := alerts[j].startedAt.value, a.startedAt.value;
            s.seconds < t.seconds || (s.seconds == t.seconds && s.nanos <= t.nanos)
    ensures alerts[j].startedAt == a.startedAt ==> exists i :: 0 <= i <= j && alerts[i] == a
  {
    CurrentStartedLast(alerts, name, a);
    var i: nat :| StartedLast(alerts, name, i) && alerts[i] == a;
    assert alerts[i] in alerts && alerts[j] in alerts;
  }

  /** The histories split the list: each alert occurs in the history of its own name as often as
      in the list, and in no other. */
  lemma {:induction false} HistoriesPartition(alerts: seq<Alert>, name: string, a: Alert)
    ensures multiset(OfName(alerts, name))[a] == if a.name == name then multiset(alerts)[a] else 0
  {
    if alerts != [] {
      var last := alerts[|alerts| - 1];
      HistoriesPartition(alerts[..|alerts| - 1], name, a);
      assert alerts == alerts[..|alerts| - 1] + [last];
    }
  }

  /** A history keeps the order of the list. */
  lemma {:induction false} HistoryKeepsOrder(a: seq<Alert>, b: seq<Alert>, name: string)
    ensures OfName(a + b, name) == OfName(a, name) + OfName(b, name)
  {
    if b == [] {
      assert a + b == a;
    } else {
      assert (a + b)[..|a + b| - 1] == a + b[..|b| - 1];
      HistoryKeepsOrder(a, b[..|b| - 1], name);
    }
  }

  // ---------------------------------------------------------------- publishing alerts

  /** One publish: its topic and the alerts whose maps are its payload. */
  datatype Publish = Publish(topic: string, alerts: seq<Alert>)

  function CurrentTopic(topicBase: string, vin: string, name: string): string {
    topicBase + "/" + vin + "/alerts/" + name + "/current"
  }

  function HistoryTopic(topicBase: string, vin: string, name: string): string {
    topicBase + "/" + vin + "/alerts/" + name + "/history"
  }

  ghost predicate Lists<T(!new)>(names: seq<T>, keys: set<T>) {
    && |names| == |keys|
    && (forall n :: n in names <==> n in keys)
    && forall i, j :: 0 <= i < j < |names| ==> names[i] != names[j]
  }

  /** One publish for each name, of its current alert. */
  ghost predicate PublishesCurrent(topicBase: string, vin: string, alerts: seq<Alert>, names: seq<string>, publishes: seq<Publish>) {
    && |publishes| == |names|
    && forall k :: 0 <= k < |names| ==>
                     && publishes[k].topic == topicBase + "/" + vin + "/alerts/" + names[k] + "/current"
                     && |publishes[k].alerts| == 1 && IsCurrent(alerts, names[k], publishes[k].alerts[0])
  }

  /** One publish for each name, of all its alerts. */
  ghost predicate PublishesHistory(topicBase: string, vin: string, alerts: seq<Alert>, names: seq<string>, publishes: seq<Publish>) {
    && |publishes| == |names|
    && forall k :: 0 <= k < |names| ==>
                     && publishes[k].topic == topicBase + "/" + vin + "/alerts/" + names[k] + "/history"
                     && publishes[k].alerts == OfName(alerts, names[k])
  }

  /** processVehicleAlerts: the current alert of every name that has one, then the history of
      every name, each once and in any order. */
  method ProcessVehicleAlerts(topicBase: string, vin: string, alerts: seq<Alert>)
    returns (publishes: seq<Publish>, currentNames: seq<string>, historyNames: seq<string>)
    ensures Lists(currentNames, set a | a in alerts && a.startedAt.Some? :: a.name)
    ensures Lists(historyNames, set a | a in alerts :: a.name)
    ensures |publishes| == |currentNames| + |historyNames|
    ensures PublishesCurrent(topicBase, vin, alerts, currentNames, publishes[..|currentNames|])
    ensures PublishesHistory(topicBase, vin, alerts, historyNames, publishes[|currentNames|..])
  {
    hide *;
    var history, current := GatherAlerts(alerts);
    currentNames := Enumerate(current.Keys);
    historyNames := Enumerate(history.Keys);
    KeysAreNames(alerts, history, current);
    var currents := PublishCurrent(topicBase, vin, alerts, current, currentNames);
    var histories := PublishHistory(topicBase, vin, alerts, history, historyNames);
    publishes := currents + histories;
    assert publishes[..|currentNames|] == currents && publishes[|currentNames|..] == histories;
  }

  lemma KeysAreNames(alerts: seq<Alert>, history: map<string, seq<Alert>>, current: map<string, Alert>)
    requires IsHistory(alerts, history) && IsCurrentState(alerts, current)
    ensures current.Keys == (set a | a in alerts && a.startedAt.Some? :: a.name) && history.Keys == set a | a in alerts :: a.name
  {
    hide IsCurrent, OfName;
    forall n
      ensures n in current.Keys <==> n in set a | a in alerts && a.startedAt.Some? :: a.name
    {
      if n in current {
        var a :| a in alerts && StartedOf(a, n);
      }
    }
  }

  method PublishCurrent(topicBase: string, vin: string, ghost alerts: seq<Alert>, current: map<string, Alert>, names: seq<string>)
    returns (publishes: seq<Publish>)
    requires IsCurrentState(alerts, current) && Lists(names, current.Keys)
    ensures |publishes| == |names| && PublishesCurrent(topicBase, vin, alerts, names, publishes)
  {
    hide IsCurrent;
    publishes := [];
    for i := 0 to |names|
      invariant |publishes| == i && PublishesCurrent(topicBase, vin, alerts, names[..i], publishes)
    {
      assert names[i] in names;
      publishes := publishes + [Publish(CurrentTopic(topicBase, vin, names[i]), [current[names[i]]])];
    }
    assert names[..|names|] == names;
  }

  method PublishHistory(topicBase: string, vin: string, ghost alerts: seq<Alert>, history: map<string, seq<Alert>>, names: seq<string>)
    returns (publishes: seq<Publish>)
    requires IsHistory(alerts, history) && Lists(names, history.Keys)
    ensures |publishes| == |names| && PublishesHistory(topicBase, vin, alerts, names, publishes)
  {
    hide OfName;
    publishes := [];
    for i := 0 to |names|
      invariant |publishes| == i && PublishesHistory(topicBase, vin, alerts, names[..i], publishes)
    {
      assert names[i] in names;
      publishes := publishes + [Publish(HistoryTopic(topicBase, vin, names[i]), history[names[i]])];
    }
    assert names[..|names|] == names;
  }

  /** The keys of a map in the order a range loop happens to visit them. */
  method Enumerate<T(==,!new)>(keys: set<T>) returns (names: seq<T>)
    ensures Lists(names, keys)
  {
    names := [];
    var todo := keys;
    while todo != {}
      invariant todo <= keys && |names| + |todo| == |keys|
      invariant forall n :: n in names <==> n in keys && n !in todo
      invariant forall i, j :: 0 <= i < j < |names| ==> names[i] != names[j]
    {
      var n :| n in todo;
      names := names + [n];
      todo := todo - {n};
    }
  }

  // ---------------------------------------------------------------- signals

  /** payloadToMap: one entry per field; a repeated field keeps its last value. A signal without a
      value is dereferenced all the same. */
  method PayloadToMap(data: seq<Datum>) returns (r: Outcome<map<int, Value>>)
    ensures !r.Rejected? && (r.Panicked? <==> LacksValue(data))
    ensures r.Ok? ==> forall k :: k in r.value <==> exists i :: 0 <= i < |data| && data[i].key == k
    ensures r.Ok? ==>
              forall i :: 0 <= i < |data| && (forall j :: i < j < |data| ==> data[j].key != data[i].key) ==>
                            Some(r.value[data[i].key]) == data[i].value
  {
    var m: map<int, Value> := map[];
    for i := 0 to |data|
      invariant forall k :: 0 <= k < i ==> data[k].value.Some?
      invariant forall k :: k in m <==> exists j :: 0 <= j < i && data[j].key == k
      invariant forall j :: 0 <= j < i && (forall l :: j < l < i ==> data[l].key != data[j].key) ==>
                              Some(m[data[j].key]) == data[j].value
    {
      if data[i].value.None? {
        return Panicked;
      }
      m := m[data[i].key := data[i].value.value];
    }
    r := Ok(m);
  }

  // ---------------------------------------------------------------- waiting for the broker

  /** A publish on its way: when the broker answers, if ever, counted from the first wait, and
      whether the answer is an error. */
  datatype Token = Token(doneAt: Option<nat>, failed: bool)

  /** waitTokenTimeout at time `now`: whether the token ended well within `d`, and the time after. */
  function WaitTokenTimeout(t: Token, now: nat, d: nat): (r: (bool, nat))
    ensures now <= r.1 <= now + d
  {
    if d == 0 then (t.doneAt.Some? && t.doneAt.value <= now && !t.failed, now)
    else if t.doneAt.Some? && t.doneAt.value <= now + d then
      (!t.failed, if t.doneAt.value > now then t.doneAt.value else now)
    else (false, now + d)
  }

  function Max(a: int, b: int): int {
    if a < b then b else a
  }

  /** The time when the wait for token `i` begins, if `lag(k)` passes before the wait for token `k`. */
  function Clock(tokens: seq<Token>, lag: nat -> nat, timeout: int, i: nat): (t: nat)
    requires i < |tokens|
  {
    lag(i) + if i == 0 then 0
             else var now := Clock(tokens, lag, timeout, i - 1);
                  WaitTokenTimeout(tokens[i - 1], now, Max(0, timeout - now)).1
  }

  /** The token ends without error before its remaining budget is used up. */
  predicate Timely(t: Token, now: nat, timeout: int) {
    !t.failed && t.doneAt.Some? && t.doneAt.value <= Max(now, timeout)
  }

  /** Token `i` is timely when the loop gets to it. */
  ghost predicate InTime(tokens: seq<Token>, lag: nat -> nat, timeout: int, i: nat)
    requires i < |tokens|
  {
    Timely(tokens[i], Clock(tokens, lag, timeout, i), timeout)
  }

  lemma WaitingTellsTimely(t: Token, now: nat, timeout: int)
    ensures var d := Max(0, timeout - now);
            && WaitTokenTimeout(t, now, d).0 == Timely(t, now, timeout)
            && WaitTokenTimeout(t, now, d).1 <= Max(now, timeout)
  {
  }

  /** The token loop of Produce. However many tokens there are, and whatever time passes between
      the waits, the waits together take no longer than the timeout; there is no error exactly
      when every token is timely. */
  method WaitForTokens(tokens: seq<Token>, lag: nat -> nat, timeout: int) returns (publishError: bool, waited: nat, errors: nat)
    ensures waited <= Max(0, timeout)
    ensures publishError <==> exists i :: 0 <= i < |tokens| && !InTime(tokens, lag, timeout, i)
    ensures publishError <==> errors > 0
  {
    hide Timely, WaitTokenTimeout;
    publishError, waited, errors := false, 0, 0;
    var now := 0;
    for i := 0 to |tokens|
      invariant waited <= now && waited <= Max(0, timeout)
      invariant i < |tokens| ==> Clock(tokens, lag, timeout, i) == now + lag(i)
      invariant publishError <==> exists k :: 0 <= k < i && !InTime(tokens, lag, timeout, k)
      invariant publishError <==> errors > 0
    {
      now := now + lag(i);
      var remainingTimeout := timeout - now;
      if remainingTimeout < 0 {
        remainingTimeout := 0;
      }
      var (ok, later) := WaitTokenTimeout(tokens[i], now, remainingTimeout);
      WaitingTellsTimely(tokens[i], now, timeout);
      assert ok == InTime(tokens, lag, timeout, i);
      waited := waited + (later - now);
      now := later;
      if !ok {
        errors := errors + 1;
        publishError := true;
      }
    }
  }

  /** A publish that answers without error within the timeout is timely wherever it stands in the
      list and however late the loop gets to it. When no time is lost between the waits, no other
      publish is: the order of the tokens does not matter. */
  lemma {:induction false} TimelyWhateverTheOrder(tokens: seq<Token>, lag: nat -> nat, timeout: int, i: nat)
    requires i < |tokens| && timeout >= 0
    ensures !tokens[i].failed && tokens[i].doneAt.Some? && tokens[i].doneAt.value <= timeout ==>
              InTime(tokens, lag, timeout, i)
    ensures (forall k :: lag(k) == 0) ==>
              && Clock(tokens, lag, timeout, i) <= timeout
              && (InTime(tokens, lag, timeout, i) <==>
                  !tokens[i].failed && tokens[i].doneAt.Some? && tokens[i].doneAt.value <= timeout)
  {
    if i > 0 {
      TimelyWhateverTheOrder(tokens, lag, timeout, i - 1);
    }
  }

  // ---------------------------------------------------------------- the producer

  /** Converting the message panics. */
  predicate Crashes(m: Message) {
    m.Signals? && LacksValue(m.data)
  }

  /** How many publishes a message leads to: one per signal, per name with a started alert and per
      name of an alert, per error, or one. */
  ghost function PublishCount(p: Message): (n: nat) {
    match p
    case Signals(data) => |set d | d in data :: d.key|
    case Alerts(alerts) => |set a | a in alerts && a.startedAt.Some? :: a.name| + |set a | a in alerts :: a.name|
    case Errors(names) => |names|
    case Connectivity => 1
    case NoMessage => 0
  }

  /** What preparing a record leads to: nothing to do, a panic, an error, or publishes to wait for. */
  datatype Prepared = ShutDown | UnknownPayload | Crash | PayloadError | Published(tokens: seq<Token>)

  function TokensOf(count: nat, broker: nat -> Token): (tokens: seq<Token>)
    ensures |tokens| == count && forall i :: 0 <= i < count ==> tokens[i] == broker(i)
  {
    seq(count, i requires 0 <= i < count => broker(i))
  }

  /** What a record's message is prepared to, when `marshals` says which of its publishes can be
      marshalled and `broker` how each fares. */
  ghost function Prepare(closed: bool, p: Message, marshals: nat -> bool, broker: nat -> Token): (r: Prepared) {
    if closed then ShutDown
    else if p.NoMessage? then UnknownPayload
    else if Crashes(p) then Crash
    else if exists i :: 0 <= i < PublishCount(p) && !marshals(i) then PayloadError
    else Published(TokensOf(PublishCount(p), broker))
  }

  /** Every publish of the record ended well and in time. */
  ghost predicate AllTimely(p: Prepared, lag: nat -> nat, timeout: int) {
    p.Published? && forall i :: 0 <= i < |p.tokens| ==> InTime(p.tokens, lag, timeout, i)
  }

  /** The loop in which the publishes of a record are marshalled and handed to the client. */
  method PublishEach(count: nat, marshals: nat -> bool, broker: nat -> Token) returns (tokens: seq<Token>, failed: bool)
    ensures failed <==> exists i :: 0 <= i < count && !marshals(i)
    ensures |tokens| <= count && forall i :: 0 <= i < |tokens| ==> tokens[i] == broker(i) && marshals(i)
    ensures !failed ==> tokens == TokensOf(count, broker)
  {
    tokens := [];
    for i := 0 to count
      invariant |tokens| == i && forall k :: 0 <= k < i ==> tokens[k] == broker(k) && marshals(k)
    {
      if !marshals(i) {
        return tokens, true;
      }
      tokens := tokens + [broker(i)];
    }
    failed := false;
  }

  /** The topics a message is published to: one for each field, however often it occurs; one for the
      current alert and one for the history of each name that has one; one for each error, in order;
      and one for connectivity. */
  ghost predicate IsTopics(p: Message, base: string, vin: string, fieldName: int -> string, topics: seq<string>) {
    match p
    case Signals(data) =>
      exists keys: seq<int> :: Lists(keys, set d | d in data :: d.key) && |topics| == |keys|
                               && forall i :: 0 <= i < |keys| ==> topics[i] == base + "/" + vin + "/v/" + fieldName(keys[i])
    case Alerts(alerts) =>
      exists current: seq<string>, history: seq<string> ::
        && Lists(current, set a | a in alerts && a.startedAt.Some? :: a.name) && Lists(history, set a | a in alerts :: a.name)
        && AreAlertTopics(base, vin, current, history, topics)
    case Errors(names) =>
      |topics| == |names| && forall i :: 0 <= i < |names| ==> topics[i] == base + "/" + vin + "/errors/" + names[i]
    case Connectivity => topics == [base + "/" + vin + "/connectivity"]
    case NoMessage => topics == []
  }

  ghost predicate AreAlertTopics(base: string, vin: string, current: seq<string>, history: seq<string>, topics: seq<string>) {
    && |topics| == |current| + |history|
    && (forall i :: 0 <= i < |current| ==> topics[i] == base + "/" + vin + "/alerts/" + current[i] + "/current")
    && forall i :: 0 <= i < |history| ==> topics[|current| + i] == base + "/" + vin + "/alerts/" + history[i] + "/history"
  }

  /** The publishes each kind of message is turned into, and how many they are. */
  method CountPublishes(p: Message, topicBase: string, vin: string, fieldName: int -> string) returns (r: Outcome<nat>, topics: seq<string>)
    ensures r == if Crashes(p) then Panicked else Ok(PublishCount(p))
    ensures r.Ok? ==> r.value == |topics| && IsTopics(p, topicBase, vin, fieldName, topics)
  {
    hide LacksValue, Lists;
    topics := [];
    if p.Signals? {
      var converted := PayloadToMap(p.data);
      if converted.Panicked? {
        return Panicked, [];
      }
      topics := ProcessVehicleFields(p.data, converted.value, topicBase, vin, fieldName);
      return Ok(|topics|), topics;
    }
    if p.Alerts? {
      var publishes, currentNames, historyNames := ProcessVehicleAlerts(topicBase, vin, p.alerts);
      topics := TopicsOf(publishes);
      AlertTopics(p, topicBase, vin, fieldName, publishes, currentNames, historyNames);
      return Ok(|publishes|), topics;
    }
    if p.Errors? {
      for i := 0 to |p.names|
        invariant |topics| == i && forall k :: 0 <= k < i ==> topics[k] == topicBase + "/" + vin + "/errors/" + p.names[k]
      {
        topics := topics + [topicBase + "/" + vin + "/errors/" + p.names[i]];
      }
    } else if p.Connectivity? {
      topics := [topicBase + "/" + vin + "/connectivity"];
    }
    r := Ok(|topics|);
  }

  lemma AlertTopics(p: Message, topicBase: string, vin: string, fieldName: int -> string,
                    publishes: seq<Publish>, current: seq<string>, history: seq<string>)
    requires p.Alerts? && |publishes| == |current| + |history|
    requires Lists(current, set a | a in p.alerts && a.startedAt.Some? :: a.name) && Lists(history, set a | a in p.alerts :: a.name)
    requires PublishesCurrent(topicBase, vin, p.alerts, current, publishes[..|current|])
    requires PublishesHistory(topicBase, vin, p.alerts, history, publishes[|current|..])
    ensures IsTopics(p, topicBase, vin, fieldName, TopicsOf(publishes)) && |publishes| == PublishCount(p)
  {
    CurrentTopics(topicBase, vin, p.alerts, current, publishes[..|current|]);
    HistoryTopics(topicBase, vin, p.alerts, history, publishes[|current|..]);
    hide PublishesCurrent, PublishesHistory;
    assert forall i :: 0 <= i < |current| ==> publishes[..|current|][i] == publishes[i];
    assert forall i :: 0 <= i < |history| ==> publishes[|current|..][i] == publishes[|current| + i];
    assert AreAlertTopics(topicBase, vin, current, history, TopicsOf(publishes));
    hide AreAlertTopics;
  }

  function TopicsOf(publishes: seq<Publish>): (topics: seq<string>)
    ensures |topics| == |publishes| && forall i :: 0 <= i < |topics| ==> topics[i] == publishes[i].topic
  {
    seq(|publishes|, i requires 0 <= i < |publishes| => publishes[i].topic)
  }

  lemma CurrentTopics(base: string, vin: string, alerts: seq<Alert>, names: seq<string>, publishes: seq<Publish>)
    requires PublishesCurrent(base, vin, alerts, names, publishes)
    ensures |publishes| == |names|
    ensures forall i :: 0 <= i < |names| ==> publishes[i].topic == base + "/" + vin + "/alerts/" + names[i] + "/current"
  {
    hide IsCurrent;
  }

  lemma HistoryTopics(base: string, vin: string, alerts: seq<Alert>, names: seq<string>, publishes: seq<Publish>)
    requires PublishesHistory(base, vin, alerts, names, publishes)
    ensures |publishes| == |names|
    ensures forall i :: 0 <= i < |names| ==> publishes[i].topic == base + "/" + vin + "/alerts/" + names[i] + "/history"
  {
    hide OfName;
  }

  /** processVehicleFields: one publish for each entry of the map. */
  method ProcessVehicleFields(data: seq<Datum>, converted: map<int, Value>, topicBase: string, vin: string, fieldName: int -> string)
    returns (topics: seq<string>)
    requires forall k :: k in converted <==> exists i :: 0 <= i < |data| && data[i].key == k
    ensures |topics| == |set d | d in data :: d.key| && IsTopics(Signals(data), topicBase, vin, fieldName, topics)
  {
    SignalKeys(data, converted);
    var keys := Enumerate(converted.Keys);
    topics := [];
    for i := 0 to |keys|
      invariant |topics| == i && forall k :: 0 <= k < i ==> topics[k] == topicBase + "/" + vin + "/v/" + fieldName(keys[k])
    {
      topics := topics + [topicBase + "/" + vin + "/v/" + fieldName(keys[i])];
    }
  }

  lemma SignalKeys(data: seq<Datum>, m: map<int, Value>)
    requires forall k :: k in m <==> exists i :: 0 <= i < |data| && data[i].key == k
    ensures |m| == |set d | d in data :: d.key| && m.Keys == set d | d in data :: d.key
  {
    var keys := set d | d in data :: d.key;
    forall k
      ensures k in m <==> k in keys
    {
      if k in m {
        var i :| 0 <= i < |data| && data[i].key == k;
        assert data[i] in data;
      }
    }
    assert m.Keys == keys;
  }

  /** Produce: it panics exactly when the client is open and some signal of the message has no value.
      Otherwise the record goes to the acknowledgement step exactly when it has a message, all of its
      publishes could be made, and all of them are timely. */
  method Produce(closed: bool, p: Message, topicBase: string, vin: string, fieldName: int -> string, marshals: nat -> bool, broker: nat -> Token,
                 lag: nat -> nat, timeout: int) returns (confirmed: Outcome<bool>, errors: nat)
    ensures !confirmed.Rejected? && (confirmed.Panicked? <==> !closed && Crashes(p))
    ensures confirmed == Ok(true) <==> AllTimely(Prepare(closed, p, marshals, broker), lag, timeout)
    ensures errors > 0 <==> !closed && !p.NoMessage? && confirmed == Ok(false)
  {
    hide InTime, PublishCount, LacksValue;
    if closed || p.NoMessage? {
      return Ok(false), 0;
    }
    var count, topics := CountPublishes(p, topicBase, vin, fieldName);
    if count.Panicked? {
      return Panicked, 0;
    }
    var tokens, failed := PublishEach(count.value, marshals, broker);
    if failed {
      return Ok(false), 1;
    }
    var publishError, _, e := WaitForTokens(tokens, lag, timeout);
    confirmed, errors := Ok(!publishError), e;
  }

  /** A record is only ever confirmed if its type has a message, and that can be converted. */
  lemma OnlyMessagesConfirm(closed: bool, p: Message, marshals: nat -> bool, broker: nat -> Token, lag: nat -> nat, timeout: int, txType: string)
    requires p.OfType(txType) && AllTimely(Prepare(closed, p, marshals, broker), lag, timeout)
    ensures txType in REWRITTEN_TYPES && !Crashes(p)
  {
  }
}
