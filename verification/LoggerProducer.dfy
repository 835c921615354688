/** The producer that logs records. It confirms nothing, but it can panic. */
module LoggerProducer {
  import opened GoTypes
  import opened RecordTransforms

  /** getModelFromVIN: the fourth character. */
  function ModelFromVin(vin: string): (r: Outcome<char>) {
    if |vin| > 3 then Ok(vin[3]) else Panicked
  }

  /** Converting the message panics. */
  predicate Crashes(m: Message, vin: string) {
    m.Signals? && HasTires(m.data) && |vin| < 4
  }

  /** PayloadToMap: one entry per field with a value of a known kind; a repeated field keeps the last.
      Signals without a value are skipped. What tires are called depends on the model, which is part
      of the VIN. */
  method PayloadToMap(data: seq<Datum>, known: Value -> bool, vin: string) returns (r: Outcome<map<int, Value>>)
    ensures !r.Rejected? && (r.Panicked? <==> HasTires(data) && |vin| < 4)
    ensures r.Ok? ==>
              forall k :: k in r.value <==>
                exists i :: 0 <= i < |data| && data[i].key == k && data[i].value.Some?
                            && (data[i].value.value.TireLocationValue? || known(data[i].value.value))
  {
    var m: map<int, Value> := map[];
    for i := 0 to |data|
      invariant |vin| < 4 ==> forall j :: 0 <= j < i ==> data[j].value != Some(TireLocationValue)
      invariant forall k :: k in m <==>
                  exists j :: 0 <= j < i && data[j].key == k && data[j].value.Some?
                              && (data[j].value.value.TireLocationValue? || known(data[j].value.value))
    {
      if data[i].value.Some? {
        var value := data[i].value.value;
        if value.TireLocationValue? {
          var model := ModelFromVin(vin);
          if model.Panicked? {
            return Panicked;
          }
          m := m[data[i].key := value];
        } else if known(value) {
          m := m[data[i].key := value];
        }
      }
    }
    r := Ok(m);
  }

  /** Produce: it panics exactly when some signal tells where tires are and the VIN is too short to
      have a model. */
  method Produce(m: Message, known: Value -> bool, vin: string) returns (logged: Outcome<bool>)
    ensures logged == if Crashes(m, vin) then Panicked else Ok(!m.NoMessage?)
  {
    if m.Signals? {
      var converted := PayloadToMap(m.data, known, vin);
      if converted.Panicked? {
        return Panicked;
      }
    }
    logged := Ok(!m.NoMessage?);
  }
}
