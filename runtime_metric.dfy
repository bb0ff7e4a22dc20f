/** The metric the runtime sampler writes (runtimeMetric.go): a snapshot of a
    registry of instruments, under the measurement name "gopprof", with no tags. */
module RuntimeMetrics {
  import opened Wrappers
  import opened GoInts
  import opened Metrics

  /** What a registry holds under a name: a gauge (read with `Value`), a
      counter (read with `Count`), or an instrument of any other kind. */
  datatype Instrument =
    | GaugeInstrument(gaugeValue: int64)
    | CounterInstrument(count: int64)
    | OtherInstrument

  /** One entry of the registry, in the order the registry visits it. */
  datatype RegistryEntry = RegistryEntry(name: string, instrument: Instrument)

  datatype RuntimeMetric = RuntimeMetric(
    tags: TagMap?,
    values: map<string, FieldValue>,
    time: int)
  {
    function Measurement(): (name: string)
      ensures name == "gopprof"
    {
      "gopprof"
    }

    function Tags(): (t: TagMap?)
      ensures t == tags
    {
      tags
    }

    function Values(): (v: map<string, FieldValue>)
      ensures v == values
    {
      values
    }

    function Time(): (t: int)
      ensures t == time
    {
      time
    }

    /** The metric as the writer sees it, through the four accessors. */
    function AsMetric(): (m: Metric)
      ensures m.measurement == "gopprof"
      ensures m.tags == tags && m.values == values && m.time == time
    {
      Metric(Measurement(), Tags(), Values(), Time())
    }
  }

  /** The field value an instrument contributes, if its kind is reported. */
  function Reported(i: Instrument): (v: Option<FieldValue>)
    ensures i.GaugeInstrument? ==> v == Some(IntValue(i.gaugeValue))
    ensures i.CounterInstrument? ==> v == Some(IntValue(i.count))
    ensures i.OtherInstrument? ==> v == None
  {
    match i
    case GaugeInstrument(g) => Some(IntValue(g))
    case CounterInstrument(c) => Some(IntValue(c))
    case OtherInstrument => None
  }

  /** The `values` map built by visiting the entries in order; a later entry
      under the same name overwrites an earlier one. */
  function Collected(entries: seq<RegistryEntry>): map<string, FieldValue>
    decreases |entries|
  {
    if entries == [] then map[]
    else
      var last := entries[|entries| - 1];
      var before := Collected(entries[..|entries| - 1]);
      match Reported(last.instrument)
      case Some(v) => before[last.name := v]
      case None => before
  }

  /** A name is a key of the values exactly when some gauge or counter entry carries it. */
  lemma {:induction false} CollectedKeys(entries: seq<RegistryEntry>, name: string)
    ensures name in Collected(entries) <==>
      exists i :: 0 <= i < |entries| && entries[i].name == name && Reported(entries[i].instrument).Some?
    decreases |entries|
  {
    if entries != [] {
      var init := entries[..|entries| - 1];
      CollectedKeys(init, name);
      if name in Collected(init) {
        var i :| 0 <= i < |init| && init[i].name == name && Reported(init[i].instrument).Some?;
        assert entries[i] == init[i];
      }
      forall i | 0 <= i < |init| ensures entries[i] == init[i] { }
    }
  }

  /** A gauge entry maps its name to its `Value()`, a counter entry to its
      `Count()`, when no later entry reuses the name (registry names are keys
      of a map, so none does). */
  lemma {:induction false} CollectedValue(entries: seq<RegistryEntry>, i: nat)
    requires i < |entries|
    requires Reported(entries[i].instrument).Some?
    requires forall j :: i < j < |entries| ==> entries[j].name != entries[i].name
    ensures entries[i].name in Collected(entries)
    ensures Collected(entries)[entries[i].name] == Reported(entries[i].instrument).value
    decreases |entries|
  {
    if i < |entries| - 1 {
      var init := entries[..|entries| - 1];
      assert init[i] == entries[i];
      CollectedValue(init, i);
    }
  }

  /** `newRuntimeMetric`: read every gauge and counter of the registry into a
      fresh values map; the tags are left `nil`. */
  method NewRuntimeMetric(registry: seq<RegistryEntry>, now: int) returns (m: RuntimeMetric)
    ensures m.tags == null && m.time == now
    ensures m.values == Collected(registry)
  {
    var values: map<string, FieldValue> := map[];
    for i := 0 to |registry|
      invariant values == Collected(registry[..i])
    {
      var entry := registry[i];
      assert registry[..i + 1][..i] == registry[..i];
      match entry.instrument
      case GaugeInstrument(g) =>
        values := values[entry.name := IntValue(g)];
      case CounterInstrument(c) =>
        values := values[entry.name := IntValue(c)];
      case OtherInstrument =>
    }
    assert registry[..|registry|] == registry;
    m := RuntimeMetric(null, values, now);
  }
}
