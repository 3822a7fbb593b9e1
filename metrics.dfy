/**
 * The metric mapping of `RequestHandler.do_GET`
 * (src/axis_exporter/exporter.py:123-148): the product number read from
 * the parameter list, then one `axis_temp` reading per entry of the
 * temperature tree's `Sensor` section and an `axis_heater_status` and an
 * `axis_heater_timer` reading per key of its `Heater` section.
 *
 * Each `Gauge.labels(...).set(...)` call becomes an `Observation`; the
 * float conversion that `set` performs is not modelled, so temperatures
 * and timers stay the strings the camera sent. A failed lookup raises in
 * the source and stops the loops, so a mapping is the observations made
 * before the failure together with the failure, if any.
 */
module Metrics {
  import opened Wrappers
  import opened FlatKey

  /** The gauges of src/axis_exporter/prometheus_metrics.py:9-11: names and label names. */
  const TempMetric := "axis_temp"
  const HeaterStatusMetric := "axis_heater_status"
  const HeaterTimerMetric := "axis_heater_timer"
  const TempLabelNames: seq<string> := ["product_name", "node", "sensor_name"]
  const HeaterLabelNames: seq<string> := ["product_name", "node", "heater_id"]

  /** The argument of `Gauge.set`: a string from the camera, or a heater state code. */
  datatype Sample = Raw(text: string) | Code(n: int)

  datatype Label = Label(name: string, value: string)

  /** One `gauge.labels(...).set(value)` call. */
  datatype Observation = Observation(metric: string, labels: seq<Label>, value: Sample)

  /** Why a lookup in a parsed tree raises. */
  datatype SchemaError =
    | MissingKey(key: string)  // `d[key]` on a dictionary without `key`: KeyError
    | NotIndexable(key: string)  // `s[key]` or `s.items()` on a string: TypeError / AttributeError
    | NotAString(key: string)  // a dictionary where a label or a gauge value is expected

  /** The observations made, in order, and the lookup that stopped the loops, if one did. */
  datatype Mapping = Mapping(observations: seq<Observation>, failure: Option<SchemaError>)

  /** Python `t[key]`. */
  function Index(t: Tree, key: string): (r: Result<Tree, SchemaError>)
    ensures r.Ok? <==> t.Node? && Get(t.entries, key).Some?
    ensures r.Ok? ==> At(t, [key]) == Some(r.value)
  {
    match t
    case Leaf(_) => Err(NotIndexable(key))
    case Node(d) =>
      match Get(d, key)
      case None => Err(MissingKey(key))
      case Some(child) => Ok(child)
  }

  /** `t[key]` where the result is used as a string. */
  function IndexString(t: Tree, key: string): (r: Result<string, SchemaError>)
    ensures r.Ok? <==> At(t, [key]).Some? && At(t, [key]).value.Leaf?
    ensures r.Ok? ==> At(t, [key]) == Some(Leaf(r.value))
  {
    var child :- Index(t, key);
    match child
    case Leaf(s) => Ok(s)
    case Node(_) => Err(NotAString(key))
  }

  /** `data['root']['Brand']['ProdNbr']` (exporter.py:123): the camera model. */
  function ProductName(data: Dict): (r: Result<string, SchemaError>)
    ensures r.Ok? <==> At(Node(data), ["root", "Brand", "ProdNbr"]).Some? && At(Node(data), ["root", "Brand", "ProdNbr"]).value.Leaf?
    ensures r.Ok? ==> At(Node(data), ["root", "Brand", "ProdNbr"]) == Some(Leaf(r.value))
  {
    var root :- Index(Node(data), "root");
    var brand :- Index(root, "Brand");
    assert At(Node(data), ["root", "Brand", "ProdNbr"]) == At(brand, ["ProdNbr"]) by {
      assert ["root", "Brand", "ProdNbr"][1..] == ["Brand", "ProdNbr"];
      assert ["Brand", "ProdNbr"][1..] == ["ProdNbr"];
    }
    IndexString(brand, "ProdNbr")
  }

  /**
   * The heater state of exporter.py:135-140: `Stopped` is 0, `Running` is
   * 1, anything else (another string, or a dictionary, which equals no
   * string) is 2.
   */
  function StatusCode(status: Tree): (code: int)
    ensures 0 <= code <= 2
    ensures code == 0 <==> status == Leaf("Stopped")
    ensures code == 1 <==> status == Leaf("Running")
  {
    if status == Leaf("Stopped") then 0
    else if status == Leaf("Running") then 1
    else 2
  }

  function TempLabels(model: string, host: string, name: string): seq<Label> {
    [Label("product_name", model), Label("node", host), Label("sensor_name", name)]
  }

  function HeaterLabels(model: string, host: string, id: string): seq<Label> {
    [Label("product_name", model), Label("node", host), Label("heater_id", id)]
  }

  /** The label names an observation carries. */
  function LabelNames(labels: seq<Label>): seq<string> {
    seq(|labels|, i requires 0 <= i < |labels| => labels[i].name)
  }

  /**
   * An observation names one of the three gauges with exactly the label
   * names that gauge declares, which is what `Gauge.labels` insists on.
   */
  predicate Declared(o: Observation) {
    || (o.metric == TempMetric && LabelNames(o.labels) == TempLabelNames)
    || (o.metric == HeaterStatusMetric && LabelNames(o.labels) == HeaterLabelNames)
    || (o.metric == HeaterTimerMetric && LabelNames(o.labels) == HeaterLabelNames)
  }

  /**
   * One pass of the sensor loop (exporter.py:130-132): the `Name` label
   * is looked up before the `Fahrenheit` value.
   */
  function SensorReading(model: string, host: string, sensor: Tree): (r: Result<Observation, SchemaError>)
    ensures r.Ok? <==> (&& At(sensor, ["Name"]).Some? && At(sensor, ["Name"]).value.Leaf?
                        && At(sensor, ["Fahrenheit"]).Some? && At(sensor, ["Fahrenheit"]).value.Leaf?)
    ensures r.Ok? ==> && r.value.metric == TempMetric
                      && r.value.labels == TempLabels(model, host, At(sensor, ["Name"]).value.value)
                      && r.value.value == Raw(At(sensor, ["Fahrenheit"]).value.value)
                      && Declared(r.value)
  {
    var name :- IndexString(sensor, "Name");
    var fahrenheit :- IndexString(sensor, "Fahrenheit");
    Ok(Observation(TempMetric, TempLabels(model, host, name), Raw(fahrenheit)))
  }

  /** The status half of one pass of the heater loop (exporter.py:135-144). */
  function HeaterStatus(model: string, host: string, id: string, heater: Tree): (r: Result<Observation, SchemaError>)
    ensures r.Ok? <==> At(heater, ["Status"]).Some?
    ensures r.Ok? ==> && r.value.metric == HeaterStatusMetric
                      && r.value.labels == HeaterLabels(model, host, id)
                      && r.value.value == Code(StatusCode(At(heater, ["Status"]).value))
                      && Declared(r.value)
  {
    var status :- Index(heater, "Status");
    Ok(Observation(HeaterStatusMetric, HeaterLabels(model, host, id), Code(StatusCode(status))))
  }

  /** The timer half of one pass of the heater loop (exporter.py:146-148). */
  function HeaterTimer(model: string, host: string, id: string, heater: Tree): (r: Result<Observation, SchemaError>)
    ensures r.Ok? <==> At(heater, ["TimeUntilStop"]).Some? && At(heater, ["TimeUntilStop"]).value.Leaf?
    ensures r.Ok? ==> && r.value.metric == HeaterTimerMetric
                      && r.value.labels == HeaterLabels(model, host, id)
                      && r.value.value == Raw(At(heater, ["TimeUntilStop"]).value.value)
                      && Declared(r.value)
  {
    var timer :- IndexString(heater, "TimeUntilStop");
    Ok(Observation(HeaterTimerMetric, HeaterLabels(model, host, id), Raw(timer)))
  }

  /**
   * The sensor loop (exporter.py:129-132) over the entries of `Sensor` in
   * order: the i-th observation is the i-th sensor's reading, and the loop
   * stops at the first sensor whose reading fails.
   */
  function SensorObservations(model: string, host: string, sensors: Dict): (m: Mapping)
    ensures |m.observations| <= |sensors|
    ensures forall i :: 0 <= i < |m.observations| ==> SensorReading(model, host, sensors[i].tree) == Ok(m.observations[i])
    ensures m.failure.None? <==> |m.observations| == |sensors|
    ensures m.failure.Some? ==> SensorReading(model, host, sensors[|m.observations|].tree) == Err(m.failure.value)
    decreases |sensors|
  {
    if sensors == [] then Mapping([], None)
    else
      match SensorReading(model, host, sensors[0].tree)
      case Err(e) => Mapping([], Some(e))
      case Ok(o) =>
        var rest := SensorObservations(model, host, sensors[1..]);
        Mapping([o] + rest.observations, rest.failure)
  }

  /**
   * The heater loop (exporter.py:134-148) over the keys of `Heater` in
   * order: heater i gives observations 2i (status) and 2i+1 (timer); a
   * missing timer stops the loop after that heater's status was set.
   */
  function HeaterObservations(model: string, host: string, heaters: Dict): (m: Mapping)
    ensures |m.observations| <= 2 * |heaters|
    ensures m.failure.None? <==> |m.observations| == 2 * |heaters|
    decreases |heaters|
  {
    if heaters == [] then Mapping([], None)
    else
      var id, heater := heaters[0].key, heaters[0].tree;
      match HeaterStatus(model, host, id, heater)
      case Err(e) => Mapping([], Some(e))
      case Ok(status) =>
        match HeaterTimer(model, host, id, heater)
        case Err(e) => Mapping([status], Some(e))
        case Ok(timer) =>
          var rest := HeaterObservations(model, host, heaters[1..]);
          Mapping([status, timer] + rest.observations, rest.failure)
  }

  /**
   * Heater `i`, when the loop reached it, set observation 2i from its
   * status and, when the loop went on, observation 2i+1 from its timer.
   */
  lemma {:induction false} HeaterPair(model: string, host: string, heaters: Dict, i: nat)
    requires i < |heaters| && 2 * i < |HeaterObservations(model, host, heaters).observations|
    ensures var obs := HeaterObservations(model, host, heaters).observations;
      && HeaterStatus(model, host, heaters[i].key, heaters[i].tree) == Ok(obs[2 * i])
      && (2 * i + 1 < |obs| ==> HeaterTimer(model, host, heaters[i].key, heaters[i].tree) == Ok(obs[2 * i + 1]))
  {
    var m := HeaterObservations(model, host, heaters);
    var id, heater := heaters[0].key, heaters[0].tree;
    match HeaterStatus(model, host, id, heater)
    case Err(e) =>
    case Ok(status) =>
      match HeaterTimer(model, host, id, heater)
      case Err(e) =>
        assert m == Mapping([status], Some(e));
      case Ok(timer) =>
        var rest := HeaterObservations(model, host, heaters[1..]);
        assert m == Mapping([status, timer] + rest.observations, rest.failure);
        if i > 0 {
          HeaterPair(model, host, heaters[1..], i - 1);
          assert heaters[i] == heaters[1..][i - 1];
          assert m.observations[2 * i] == rest.observations[2 * (i - 1)];
        }
  }

  /**
   * Where the heater loop stopped: at the heater after the last complete
   * pair, on its status lookup when the observations are even in number
   * and on its timer lookup when a status was set without a timer.
   */
  lemma {:induction false} HeaterFailure(model: string, host: string, heaters: Dict)
    requires HeaterObservations(model, host, heaters).failure.Some?
    ensures var m := HeaterObservations(model, host, heaters);
      var k := |m.observations| / 2;
      && k < |heaters|
      && if |m.observations| % 2 == 0 then HeaterStatus(model, host, heaters[k].key, heaters[k].tree) == Err(m.failure.value)
         else HeaterTimer(model, host, heaters[k].key, heaters[k].tree) == Err(m.failure.value)
  {
    var m := HeaterObservations(model, host, heaters);
    var id, heater := heaters[0].key, heaters[0].tree;
    match HeaterStatus(model, host, id, heater)
    case Err(e) =>
      assert m == Mapping([], Some(e));
    case Ok(status) =>
      match HeaterTimer(model, host, id, heater)
      case Err(e) =>
        assert m == Mapping([status], Some(e));
      case Ok(timer) =>
        var rest := HeaterObservations(model, host, heaters[1..]);
        assert m == Mapping([status, timer] + rest.observations, rest.failure);
        HeaterFailure(model, host, heaters[1..]);
        var k := |rest.observations| / 2;
        assert |m.observations| / 2 == k + 1;
        assert |m.observations| % 2 == |rest.observations| % 2;
        assert heaters[k + 1] == heaters[1..][k];
  }

  /**
   * Both loops over the temperature tree (exporter.py:129-148): `Sensor`
   * is looked up and walked first, then `Heater`.
   */
  function MapReadings(model: string, host: string, data: Dict): (m: Mapping)
    ensures At(Node(data), ["Sensor"]).None? ==> m == Mapping([], Some(MissingKey("Sensor")))
    ensures m.failure.None? ==>
      && At(Node(data), ["Sensor"]).Some? && At(Node(data), ["Sensor"]).value.Node?
      && At(Node(data), ["Heater"]).Some? && At(Node(data), ["Heater"]).value.Node?
      && |m.observations| == |At(Node(data), ["Sensor"]).value.entries| + 2 * |At(Node(data), ["Heater"]).value.entries|
    ensures m.failure.None? ==>
      m.observations == SensorObservations(model, host, At(Node(data), ["Sensor"]).value.entries).observations
                        + HeaterObservations(model, host, At(Node(data), ["Heater"]).value.entries).observations
    ensures (&& At(Node(data), ["Sensor"]).Some? && At(Node(data), ["Sensor"]).value.Node?
             && SensorObservations(model, host, At(Node(data), ["Sensor"]).value.entries).failure.None?
             && At(Node(data), ["Heater"]).None?)
            ==> m.failure == Some(MissingKey("Heater"))
  {
    match Index(Node(data), "Sensor")
    case Err(e) => Mapping([], Some(e))
    case Ok(Leaf(_)) => Mapping([], Some(NotIndexable("Sensor")))
    case Ok(Node(sensors)) =>
      var s := SensorObservations(model, host, sensors);
      if s.failure.Some? then s
      else
        match Index(Node(data), "Heater")
        case Err(e) => Mapping(s.observations, Some(e))
        case Ok(Leaf(_)) => Mapping(s.observations, Some(NotIndexable("Heater")))
        case Ok(Node(heaters)) =>
          var h := HeaterObservations(model, host, heaters);
          Mapping(s.observations + h.observations, h.failure)
  }

  /** Every observation of the heater loop names a declared gauge with its label names. */
  lemma HeaterDeclared(model: string, host: string, heaters: Dict)
    ensures forall k :: 0 <= k < |HeaterObservations(model, host, heaters).observations| ==>
      Declared(HeaterObservations(model, host, heaters).observations[k])
  {
    var obs := HeaterObservations(model, host, heaters).observations;
    forall k | 0 <= k < |obs| ensures Declared(obs[k]) {
      HeaterPair(model, host, heaters, k / 2);
    }
  }

  /** Every observation made names one of the three gauges, with the label names it declares. */
  lemma ObservationsDeclared(model: string, host: string, data: Dict)
    ensures forall o :: o in MapReadings(model, host, data).observations ==> Declared(o)
  {
    match Index(Node(data), "Sensor")
    case Err(_) =>
    case Ok(Leaf(_)) =>
    case Ok(Node(sensors)) =>
      var s := SensorObservations(model, host, sensors);
      if s.failure.None? {
        match Index(Node(data), "Heater")
        case Err(_) =>
        case Ok(Leaf(_)) =>
        case Ok(Node(heaters)) =>
          HeaterDeclared(model, host, heaters);
      }
  }
}
