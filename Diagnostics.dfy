/** Config-entry diagnostics: the webhook settings with their defaults and the
    vehicle and sensor counts read from the integration's runtime data. */
module Diagnostics {
  import opened Json
  import opened Vehicles

  const NotConfigured := "Not configured"

  /** Python's `len`: strings, lists and dicts have one; anything else raises
      TypeError. */
  function PyLen(j: Json): (r: Outcome<nat>)
    ensures r.Returns? <==> j.Str? || j.Arr? || j.Obj?
  {
    match j
    case Str(s) => Returns(|s|)
    case Arr(items) => Returns(|items|)
    case Obj(fields) => Returns(|fields|)
    case _ => Raises
  }

  /** Addition of two results; an exception in either raises. */
  function Plus(a: Outcome<nat>, b: Outcome<nat>): Outcome<nat>
  {
    if a.Returns? && b.Returns? then Returns(a.value + b.value) else Raises
  }

  /** `sum(len(v) for v in d.values())`. The sum does not depend on the order in
      which the values are visited (SumOfLensRemove), so the dict's insertion
      order is not modelled. */
  ghost function SumOfLens(m: map<string, Json>): (r: Outcome<nat>)
    ensures m == map[] ==> r == Returns(0)
    ensures r.Returns? ==> forall k | k in m :: PyLen(m[k]).Returns? && PyLen(m[k]).value <= r.value
    decreases |m|
  {
    if m == map[] then Returns(0)
    else
      var k :| k in m;
      assert |m - {k}| < |m| by { assert (m - {k}).Keys + {k} == m.Keys; }
      Plus(PyLen(m[k]), SumOfLens(m - {k}))
  }

  /** Whichever value is visited first, the sum is its length plus the sum of
      the rest. */
  lemma {:induction false} SumOfLensRemove(m: map<string, Json>, k: string)
    requires k in m
    ensures SumOfLens(m) == Plus(PyLen(m[k]), SumOfLens(m - {k}))
    decreases |m|
  {
    var j :| j in m && SumOfLens(m) == Plus(PyLen(m[j]), SumOfLens(m - {j}));
    if j != k {
      RemoveTwo(m, j, k);
      SumOfLensRemove(m - {j}, k);
      SumOfLensRemove(m - {k}, j);
      PlusSwap(PyLen(m[j]), PyLen(m[k]), SumOfLens(m - {j} - {k}));
    }
  }

  /** Removing two keys, in either order. */
  lemma RemoveTwo(m: map<string, Json>, j: string, k: string)
    requires j in m && k in m && j != k
    ensures |m - {j}| < |m| && |m - {k}| < |m|
    ensures k in m - {j} && (m - {j})[k] == m[k]
    ensures j in m - {k} && (m - {k})[j] == m[j]
    ensures m - {j} - {k} == m - {k} - {j}
  {
    assert (m - {j}).Keys + {j} == m.Keys;
    assert (m - {k}).Keys + {k} == m.Keys;
  }

  lemma PlusSwap(a: Outcome<nat>, b: Outcome<nat>, c: Outcome<nat>)
    ensures Plus(a, Plus(b, c)) == Plus(b, Plus(a, c))
  {
  }

  /** Adding a vehicle's map adds its length to the sum. */
  lemma SumOfLensAdd(m: map<string, Json>, k: string, v: Json)
    requires k !in m
    ensures SumOfLens(m[k := v]) == Plus(PyLen(v), SumOfLens(m))
  {
    SumOfLensRemove(m[k := v], k);
    assert m[k := v] - {k} == m;
  }

  /** The sum is defined exactly when every value has a length. */
  lemma {:induction false} SumOfLensDefined(m: map<string, Json>)
    ensures SumOfLens(m).Returns? <==> forall k | k in m :: PyLen(m[k]).Returns?
    decreases |m|
  {
    if m != map[] {
      var k :| k in m;
      SumOfLensRemove(m, k);
      assert (m - {k}).Keys + {k} == m.Keys;
      SumOfLensDefined(m - {k});
    }
  }

  /** The diagnostics dict, with the redacted config entry data. */
  datatype Report = Report(configEntry: map<string, Json>, webhookId: Json, webhookUrl: Json, vehicles: nat, sensors: nat)

  /** The two counts: `len(data.get("vehicles", []))` and the sum of the lengths of
      the per-vehicle sensor maps in `data.get("sensors", {})`, both 0 when the
      domain or the entry is missing from `hass.data`. `.values()` on a non-dict
      raises, as does `len` of a value without one. */
  ghost function Counts(hassData: map<string, map<string, map<string, Json>>>, entryId: string): (r: Outcome<(nat, nat)>)
    ensures !(Domain in hassData && entryId in hassData[Domain]) ==> r == Returns((0, 0))
    ensures Domain in hassData && entryId in hassData[Domain] ==>
      var data := hassData[Domain][entryId];
      && ("vehicles" !in data && r.Returns? ==> r.value.0 == 0)
      && ("vehicles" in data && data["vehicles"].Arr? && r.Returns? ==> r.value.0 == |data["vehicles"].items|)
      && ("sensors" !in data && r.Returns? ==> r.value.1 == 0)
      && ("sensors" in data && !data["sensors"].Obj? ==> r.Raises?)
  {
    if Domain in hassData && entryId in hassData[Domain] then
      var data := hassData[Domain][entryId];
      var vehicleCount := PyLen(GetOr(data, "vehicles", Arr([])));
      var sensors := GetOr(data, "sensors", Obj(map[]));
      if vehicleCount.Raises? || !sensors.Obj? then Raises
      else
        var sensorCount := SumOfLens(sensors.fields);
        if sensorCount.Raises? then Raises else Returns((vehicleCount.value, sensorCount.value))
    else Returns((0, 0))
  }

  /** `async_get_config_entry_diagnostics`; `redact` is the host's
      `async_redact_data` with the five secret keys. The webhook id and url
      default to "Not configured" only when the key is absent. */
  ghost function Diagnose(configData: map<string, Json>, hassData: map<string, map<string, map<string, Json>>>,
                          entryId: string, redact: map<string, Json> -> map<string, Json>): (r: Outcome<Report>)
    ensures r.Returns? <==> Counts(hassData, entryId).Returns?
    ensures r.Returns? ==>
      && r.value.configEntry == redact(configData)
      && r.value.webhookId == (if "webhook_id" in configData then configData["webhook_id"] else Str(NotConfigured))
      && r.value.webhookUrl == (if "webhook_url" in configData then configData["webhook_url"] else Str(NotConfigured))
      && (r.value.vehicles, r.value.sensors) == Counts(hassData, entryId).value
  {
    var webhookId := GetOr(configData, "webhook_id", Str(NotConfigured));
    var webhookUrl := GetOr(configData, "webhook_url", Str(NotConfigured));
    var counts := Counts(hassData, entryId);
    if counts.Raises? then Raises
    else Returns(Report(redact(configData), webhookId, webhookUrl, counts.value.0, counts.value.1))
  }

  /** With every per-vehicle sensor entry a dict, the sensor count is the sum of
      their sizes: adding a vehicle's map of `n` sensors adds `n`. */
  lemma SensorCountAddsVehicle(hassData: map<string, map<string, map<string, Json>>>, entryId: string,
                               sensors: map<string, Json>, vehicleId: string, inner: map<string, Json>)
    requires Domain in hassData && entryId in hassData[Domain]
    requires var data := hassData[Domain][entryId];
      "sensors" in data && data["sensors"] == Obj(sensors[vehicleId := Obj(inner)])
      && PyLen(GetOr(data, "vehicles", Arr([]))).Returns?
    requires vehicleId !in sensors
    ensures SumOfLens(sensors).Returns? ==>
      Counts(hassData, entryId).Returns? && Counts(hassData, entryId).value.1 == |inner| + SumOfLens(sensors).value
  {
    SumOfLensAdd(sensors, vehicleId, Obj(inner));
  }

  /** A single vehicle's map of `n` sensors counts `n`. */
  lemma SensorCountOneVehicle(hassData: map<string, map<string, map<string, Json>>>, entryId: string,
                              vehicleId: string, inner: map<string, Json>)
    requires Domain in hassData && entryId in hassData[Domain]
    requires var data := hassData[Domain][entryId];
      "sensors" in data && data["sensors"] == Obj(map[vehicleId := Obj(inner)])
      && "vehicles" !in data
    ensures Counts(hassData, entryId).Returns? && Counts(hassData, entryId).value == (0, |inner|)
  {
    SumOfLensAdd(map[], vehicleId, Obj(inner));
    assert map[][vehicleId := Obj(inner)] == map[vehicleId := Obj(inner)];
  }
}
