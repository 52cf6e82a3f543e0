/**
 * The Monitor adapter: a simulator whose entities record, at every step, the
 * values wired to them (and optionally the values of a user callback) into a
 * time series keyed by attribute name and then by wall-clock instant.
 */
module CosimMonitor {
  import opened Wrappers
  import opened CosimUtil

  /** The manifest MonitorSim declares: one public kind, Monitor, that takes any input and has no attributes. */
  const MONITOR_META := Meta("time-based", map["Monitor" := ModelSpec(true, true, ["out_path", "fn"], [])])

  /** Recorded observations: attribute name, then instant, then value. */
  type Series<V> = map<string, map<DateTime, V>>

  /** The recorded values of one attribute; an attribute never recorded reads as empty, as in a defaultdict. */
  function Row<V>(data: Series<V>, attr: string): map<DateTime, V>
  {
    if attr in data then data[attr] else map[]
  }

  /** The series after values are recorded at instant dt. */
  function Record<V>(data: Series<V>, dt: DateTime, values: map<string, V>): (r: Series<V>)
    ensures r.Keys == data.Keys + values.Keys
  {
    map attr | attr in data.Keys + values.Keys :: if attr in values then Row(data, attr)[dt := values[attr]] else data[attr]
  }

  /**
   * What recording means: each given attribute holds its value at dt, every
   * other entry is kept, and nothing else appears; no entry is ever pruned.
   */
  lemma RecordMeaning<V>(data: Series<V>, dt: DateTime, values: map<string, V>)
    ensures var r := Record(data, dt, values);
      forall attr :: attr in values ==> attr in r && dt in r[attr] && r[attr][dt] == values[attr]
    ensures var r := Record(data, dt, values);
      forall attr, t :: attr in data && t in data[attr] && (attr !in values || t != dt) ==>
        attr in r && t in r[attr] && r[attr][t] == data[attr][t]
    ensures var r := Record(data, dt, values);
      forall attr, t :: attr in r && t in r[attr] ==> (attr in values && t == dt) || (attr in data && t in data[attr])
  {
  }

  /** Overwriting one instant twice keeps only the second value. */
  lemma RowOverwrite<V>(row: map<DateTime, V>, dt: DateTime, a: V, b: V)
    ensures row[dt := a][dt := b] == row[dt := b]
  {
  }

  /** One attribute of RecordTwice. */
  lemma RecordTwiceAt<V>(data: Series<V>, dt: DateTime, first: map<string, V>, second: map<string, V>, attr: string)
    requires attr in data.Keys + first.Keys + second.Keys
    ensures Record(Record(data, dt, first), dt, second)[attr] == Record(data, dt, first + second)[attr]
  {
    var mid := Record(data, dt, first);
    if attr in second {
      if attr in first {
        assert Row(mid, attr) == Row(data, attr)[dt := first[attr]];
        RowOverwrite(Row(data, attr), dt, first[attr], second[attr]);
      } else {
        assert Row(mid, attr) == Row(data, attr);
      }
    }
  }

  /** Recording two batches at one instant is recording their union, the later batch winning on a shared attribute. */
  lemma RecordTwice<V>(data: Series<V>, dt: DateTime, first: map<string, V>, second: map<string, V>)
    ensures Record(Record(data, dt, first), dt, second) == Record(data, dt, first + second)
  {
    var lhs, rhs := Record(Record(data, dt, first), dt, second), Record(data, dt, first + second);
    assert lhs.Keys == rhs.Keys;
    forall attr | attr in lhs ensures lhs[attr] == rhs[attr] {
      RecordTwiceAt(data, dt, first, second, attr);
    }
  }

  /** Recording one more attribute is one update of its row. */
  lemma RecordAnother<V>(data: Series<V>, dt: DateTime, done: map<string, V>, attr: string, value: V)
    ensures Record(data, dt, done[attr := value]) == Record(data, dt, done)[attr := Row(Record(data, dt, done), attr)[dt := value]]
  {
    RecordTwice(data, dt, done, map[attr := value]);
    assert done + map[attr := value] == done[attr := value];
  }

  /** Two maps with the same keys and the same value at each key are equal. */
  lemma SameMap<K, V>(a: map<K, V>, b: map<K, V>)
    requires a.Keys == b.Keys
    requires forall k :: k in a ==> a[k] == b[k]
    ensures a == b
  {
  }

  /** One Monitor entity. */
  class MonitorModel<V> {
    const outPath: string
    /** Whether a callback fn was given (fn is not None). */
    const hasFn: bool
    const clock: Clock
    var data: Series<V>

    constructor (outPath: string, hasFn: bool, clock: Clock)
      ensures this.outPath == outPath && this.hasFn == hasFn && this.clock == clock
      ensures data == map[]
    {
      this.outPath := outPath;
      this.hasFn := hasFn;
      this.clock := clock;
      data := map[];
    }

    /**
     * Records the flattened inputs at the step's instant, then, when there is
     * a callback, its values (fnValues, what fn() returns at this step), which
     * override inputs of the same name.  Nothing is ever removed.
     */
    method Step(time: int, inputs: Inputs<V>, simplifyInputs: Inputs<V> -> map<string, V>, fnValues: map<string, V>)
      modifies this
      ensures var dt, observed := clock.toDatetime(time), simplifyInputs(inputs);
        var extras := if hasFn then fnValues else map[];
        data == Record(old(data), dt, observed + extras)
      ensures var dt, observed := clock.toDatetime(time), simplifyInputs(inputs);
        hasFn ==> forall attr :: attr in fnValues ==> data[attr][dt] == fnValues[attr]
      ensures var dt, observed := clock.toDatetime(time), simplifyInputs(inputs);
        forall attr :: attr in observed && !(hasFn && attr in fnValues) ==> data[attr][dt] == observed[attr]
      ensures var observed := simplifyInputs(inputs);
        !hasFn ==> data.Keys == old(data).Keys + observed.Keys
      ensures var dt := clock.toDatetime(time);
        forall attr, t :: attr in old(data) && t in old(data)[attr] && t != dt ==>
          attr in data && t in data[attr] && data[attr][t] == old(data)[attr][t]
    {
      var observed := simplifyInputs(inputs);
      var dt := clock.toDatetime(time);
      ghost var before := data;
      RecordAll(dt, observed);
      if hasFn {
        RecordAll(dt, fnValues);
        RecordTwice(before, dt, observed, fnValues);
      } else {
        assert observed + map[] == observed;
      }
      RecordMeaning(before, dt, observed + (if hasFn then fnValues else map[]));
    }

    /** One loop of step: every attribute of values written at dt, one at a time. */
    method RecordAll(dt: DateTime, values: map<string, V>)
      modifies this
      ensures data == Record(old(data), dt, values)
    {
      var pending := values.Keys;
      ghost var done: map<string, V> := map[];
      while pending != {}
        invariant pending !! done.Keys && pending + done.Keys == values.Keys
        invariant forall attr :: attr in done ==> done[attr] == values[attr]
        invariant data == Record(old(data), dt, done)
        decreases pending
      {
        var attr :| attr in pending;
        RecordAnother(old(data), dt, done, attr, values[attr]);
        data := data[attr := Row(data, attr)[dt := values[attr]]];
        done := done[attr := values[attr]];
        pending := pending - {attr};
      }
      SameMap(done, values);
    }
  }

  /** The Monitor simulator: the step size and Clock set by init, and the entities it created. */
  class MonitorSim<V> {
    var stepSize: Option<int>
    var clock: Option<Clock>
    var entities: seq<MonitorModel<V>>

    constructor ()
      ensures stepSize == None && clock == None && entities == []
    {
      stepSize := None;
      clock := None;
      entities := [];
    }

    /** The next tick at which the monitor is stepped: a fixed stride of step_size ticks after the current one. */
    function NextStep(time: int): (r: int)
      reads this
      requires stepSize.Some?
      ensures r - time == stepSize.value
      ensures stepSize.value > 0 ==> time < r
    {
      time + stepSize.value
    }

    /** init: stores the step size and the Clock of the simulation start, and returns the manifest. */
    method Init(clock: Clock, stepSize: int) returns (meta: Meta)
      modifies this
      ensures this.stepSize == Some(stepSize) && this.clock == Some(clock) && entities == old(entities)
      ensures meta == MONITOR_META
      ensures forall time :: NextStep(time) == time + stepSize
    {
      this.stepSize := Some(stepSize);
      this.clock := Some(clock);
      meta := MONITOR_META;
    }

    /**
     * create: num new Monitor entities, each given out_path, fn and the
     * simulator's Clock.  The scheduler only asks for kinds the manifest
     * declares, so any other kind is refused.
     */
    method Create(num: nat, model: string, outPath: string, hasFn: bool) returns (r: Result<seq<MonitorModel<V>>, CreateError>)
      requires clock.Some?
      modifies this
      ensures stepSize == old(stepSize) && clock == old(clock)
      ensures model !in MONITOR_META.models ==> r == Failure(UnknownModelKind(model)) && entities == old(entities)
      ensures model in MONITOR_META.models ==> r.Success? && entities == old(entities) + r.value
      ensures r.Success? ==> |r.value| == num
      ensures r.Success? ==> forall m :: m in r.value ==>
        fresh(m) && m.clock == clock.value && m.outPath == outPath && m.hasFn == hasFn && m.data == map[]
      ensures r.Success? ==> forall i, j :: 0 <= i < j < |r.value| ==> r.value[i] != r.value[j]
    {
      if model !in MONITOR_META.models {
        return Failure(UnknownModelKind(model));
      }
      var created: seq<MonitorModel<V>> := [];
      while |created| < num
        invariant entities == old(entities) && stepSize == old(stepSize) && clock == old(clock)
        invariant |created| <= num
        invariant forall m :: m in created ==>
          fresh(m) && m.clock == clock.value && m.outPath == outPath && m.hasFn == hasFn && m.data == map[]
        invariant forall i, j :: 0 <= i < j < |created| ==> created[i] != created[j]
      {
        var m := new MonitorModel(outPath, hasFn, clock.value);
        created := created + [m];
      }
      entities := entities + created;
      r := Success(created);
    }
  }
}
