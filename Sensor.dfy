/** Generic status sensors: the 11-entry definition list, the permission/status
    gating in setup, and the value each sensor reads from its status dict. */
module Sensor {
  import opened Json
  import opened Vehicles
  import Text

  /** (key, name, unit, required_permission) */
  datatype SensorDef = SensorDef(key: string, name: string, unit: Option<string>, permission: Option<string>)

  const LocationKey := "location"

  const LastUpdate := SensorDef("lastUpdate", "Last Update", None, None)

  const Definitions: seq<SensorDef> := [
    SensorDef("batteryLevel", "Battery Level", Some("%"), Some("read_battery")),
    SensorDef("chargingStatus", "Charging Status", None, Some("read_charge")),
    SensorDef("plugStatus", "Plug Status", None, Some("read_charge")),
    SensorDef("odometer", "Odometer", Some("km"), Some("read_odometer")),
    SensorDef("range", "Range", Some("km"), Some("read_battery")),
    SensorDef("tirePressure", "Tire Pressure", Some("kPa"), Some("read_tires")),
    SensorDef("doorStatus", "Door Status", None, Some("read_security")),
    SensorDef("windowStatus", "Window Status", None, Some("read_security")),
    LastUpdate,
    SensorDef("climateStatus", "Climate Status", None, Some("read_climate")),
    SensorDef(LocationKey, "Location", None, Some("read_location"))
  ]

  /** The list has 11 entries with distinct keys, and "lastUpdate" is the only one
      that needs no permission. */
  lemma DefinitionsShape()
    ensures |Definitions| == 11
    ensures forall i, j | 0 <= i < j < |Definitions| :: Definitions[i].key != Definitions[j].key
    ensures forall d | d in Definitions :: d.permission.None? <==> d == LastUpdate
  {
  }

  /** The `should_create` flag: no permission needed, or the (non-empty) permission
      list grants it, or the status holds a non-None value under the key. */
  predicate ShouldCreate(d: SensorDef, permissions: seq<string>, status: map<string, Json>)
  {
    || d.permission.None?
    || (|permissions| > 0 && d.permission.value in permissions)
    || (d.key in status && status[d.key] != Null)
  }

  /** A `NissanGenericSensor`: it keeps the status dict it was built with. */
  datatype GenericSensor = GenericSensor(
    vehicle: Vehicle,
    status: map<string, Json>,
    key: string,
    name: string,
    unit: Option<string>,
    entryId: string)
  {
    /** f"{vin}_{key}" */
    function UniqueId(): string
    {
      Vehicles.UniqueId(vehicle.vin, key)
    }

    /** The VIN's device, reached through the config entry's device. */
    function Info(): DeviceInfo
    {
      DeviceInfo({(Domain, vehicle.vin)}, Some((Domain, entryId)))
    }
  }

  /** `NissanGenericSensor(vehicle, status, key, name, unit, entry_id)`. */
  function NewSensor(vehicle: Vehicle, status: map<string, Json>, d: SensorDef, entryId: string): (s: GenericSensor)
    ensures s.vehicle == vehicle && s.status == status && s.entryId == entryId
    ensures s.key == d.key && s.unit == d.unit
    ensures s.name == EntityName(vehicle, d.name)
  {
    GenericSensor(vehicle, status, d.key, EntityName(vehicle, d.name), d.unit, entryId)
  }

  /** The sensors created for one vehicle, in list order. */
  function PlanFor(v: Vehicle, permissions: seq<string>, status: map<string, Json>,
                   defs: seq<SensorDef>, entryId: string): seq<GenericSensor>
  {
    if defs == [] then []
    else
      var last := defs[|defs| - 1];
      PlanFor(v, permissions, status, defs[..|defs| - 1], entryId)
      + (if ShouldCreate(last, permissions, status) then [NewSensor(v, status, last, entryId)] else [])
  }

  /** The sensors created for the first `n` vehicles, vehicle after vehicle. A
      failed permissions call counts as `[]`. */
  function Planned(vehicles: seq<Vehicle>, permissions: seq<Option<seq<string>>>,
                   statuses: seq<map<string, Json>>, defs: seq<SensorDef>, entryId: string, n: nat): seq<GenericSensor>
    requires |permissions| == |vehicles| && |statuses| == |vehicles| && n <= |vehicles|
  {
    if n == 0 then []
    else
      Planned(vehicles, permissions, statuses, defs, entryId, n - 1)
      + PlanFor(vehicles[n - 1], Permissions(permissions[n - 1]), statuses[n - 1], defs, entryId)
  }

  /** The positions in `defs` of the definitions that pass the gate, in increasing
      order. */
  function Selected(permissions: seq<string>, status: map<string, Json>, defs: seq<SensorDef>): (idx: seq<nat>)
    ensures |idx| <= |defs|
    ensures forall k | 0 <= k < |idx| :: idx[k] < |defs|
    ensures forall i, j | 0 <= i < j < |idx| :: idx[i] < idx[j]
  {
    if defs == [] then []
    else
      Selected(permissions, status, defs[..|defs| - 1])
      + (if ShouldCreate(defs[|defs| - 1], permissions, status) then [|defs| - 1] else [])
  }

  /** The selected positions are exactly those whose definition passes the gate. */
  lemma {:induction false} SelectedIff(permissions: seq<string>, status: map<string, Json>, defs: seq<SensorDef>, a: nat)
    requires a < |defs|
    ensures a in Selected(permissions, status, defs) <==> ShouldCreate(defs[a], permissions, status)
  {
    var n := |defs| - 1;
    if a < n {
      SelectedIff(permissions, status, defs[..n], a);
      assert defs[..n][a] == defs[a];
    }
  }

  /** One vehicle's sensors are built, in order, from the selected definitions. */
  lemma {:induction false} PlanForSelected(v: Vehicle, permissions: seq<string>, status: map<string, Json>,
                                           defs: seq<SensorDef>, entryId: string)
    ensures var plan := PlanFor(v, permissions, status, defs, entryId);
      var idx := Selected(permissions, status, defs);
      |plan| == |idx| && forall k | 0 <= k < |plan| :: plan[k] == NewSensor(v, status, defs[idx[k]], entryId)
  {
    if defs != [] {
      var n := |defs| - 1;
      PlanForSelected(v, permissions, status, defs[..n], entryId);
      var idx := Selected(permissions, status, defs[..n]);
      assert forall k | 0 <= k < |idx| :: defs[..n][idx[k]] == defs[idx[k]];
    }
  }

  /** "lastUpdate" is created for every vehicle, whatever the permissions call and
      the status gave. */
  lemma LastUpdateAlwaysCreated(v: Vehicle, fetched: Option<seq<string>>, status: map<string, Json>, entryId: string)
    ensures NewSensor(v, status, LastUpdate, entryId) in PlanFor(v, Permissions(fetched), status, Definitions, entryId)
  {
    var idx := Selected(Permissions(fetched), status, Definitions);
    SelectedIff(Permissions(fetched), status, Definitions, 8);
    PlanForSelected(v, Permissions(fetched), status, Definitions, entryId);
    var k :| 0 <= k < |idx| && idx[k] == 8;
  }

  /** With distinct keys, a definition's sensor is created iff it passes the gate. */
  lemma PlanForIff(v: Vehicle, permissions: seq<string>, status: map<string, Json>,
                   defs: seq<SensorDef>, entryId: string, a: nat)
    requires a < |defs|
    requires forall i, j | 0 <= i < j < |defs| :: defs[i].key != defs[j].key
    ensures NewSensor(v, status, defs[a], entryId) in PlanFor(v, permissions, status, defs, entryId)
            <==> ShouldCreate(defs[a], permissions, status)
  {
    var plan := PlanFor(v, permissions, status, defs, entryId);
    var idx := Selected(permissions, status, defs);
    PlanForSelected(v, permissions, status, defs, entryId);
    SelectedIff(permissions, status, defs, a);
    if ShouldCreate(defs[a], permissions, status) {
      var k :| 0 <= k < |idx| && idx[k] == a;
      assert plan[k] == NewSensor(v, status, defs[a], entryId);
    }
    if NewSensor(v, status, defs[a], entryId) in plan {
      var k :| 0 <= k < |plan| && plan[k] == NewSensor(v, status, defs[a], entryId);
      var b := idx[k];
      assert defs[b].key == defs[a].key;
      if b < a {
        assert false;
      } else if a < b {
        assert false;
      }
      assert idx[k] == a;
    }
  }

  /** A sensor that needs a permission is created iff the permission list is
      non-empty and grants it, or the status has a non-None value under its key.
      When the permissions call failed, only the status decides. */
  lemma PermissionedGating(v: Vehicle, fetched: Option<seq<string>>, status: map<string, Json>, entryId: string, a: nat)
    requires a < |Definitions| && Definitions[a].permission.Some?
    ensures var d := Definitions[a];
      NewSensor(v, status, d, entryId) in PlanFor(v, Permissions(fetched), status, Definitions, entryId)
      <==> (|Permissions(fetched)| > 0 && d.permission.value in Permissions(fetched)) || (d.key in status && status[d.key] != Null)
    ensures fetched.None? ==>
      (NewSensor(v, status, Definitions[a], entryId) in PlanFor(v, Permissions(fetched), status, Definitions, entryId)
       <==> Definitions[a].key in status && status[Definitions[a].key] != Null)
  {
    DefinitionsShape();
    PlanForIff(v, Permissions(fetched), status, Definitions, entryId, a);
  }

  /** At most 11 sensors per vehicle. */
  lemma AtMostElevenPerVehicle(v: Vehicle, permissions: seq<string>, status: map<string, Json>, entryId: string)
    ensures |PlanFor(v, permissions, status, Definitions, entryId)| <= 11
  {
    PlanForSelected(v, permissions, status, Definitions, entryId);
  }

  /** The sensors of one vehicle have distinct unique ids. */
  lemma PlanForUniqueIds(v: Vehicle, permissions: seq<string>, status: map<string, Json>, entryId: string)
    requires '_' !in v.vin
    ensures var plan := PlanFor(v, permissions, status, Definitions, entryId);
      forall i, j | 0 <= i < j < |plan| :: plan[i].UniqueId() != plan[j].UniqueId()
  {
    var plan := PlanFor(v, permissions, status, Definitions, entryId);
    var idx := Selected(permissions, status, Definitions);
    PlanForSelected(v, permissions, status, Definitions, entryId);
    DefinitionsShape();
    forall i, j | 0 <= i < j < |plan| ensures plan[i].UniqueId() != plan[j].UniqueId() {
      assert plan[i].key == Definitions[idx[i]].key && plan[j].key == Definitions[idx[j]].key;
      UniqueIdInjective(v.vin, plan[i].key, v.vin, plan[j].key);
    }
  }

  /** The "lat,lon" string of a location; float formatting is `formatNumber`. */
  function LatLon(lat: Json, lon: Json, formatNumber: Json -> string): (r: string)
    ensures var a, b := formatNumber(lat), formatNumber(lon);
      |r| == |a| + 1 + |b| && r[..|a|] == a && r[|a|] == ',' && r[|a| + 1..] == b
  {
    var a, b := formatNumber(lat), formatNumber(lon);
    assert [a, b][1..] == [b] && Text.Join([b], ',') == b;
    Text.Join([a, b], ',')
  }

  /** The `state` property: the status value under the key (None when absent). For
      a truthy location, "lat,lon" when both are truthy and None otherwise; a truthy
      location that is not a dict has no `.get`, so reading the state raises. */
  function State(s: GenericSensor, formatNumber: Json -> string): (r: Outcome<Json>)
    ensures s.key != LocationKey ==> r == Returns(Get(s.status, s.key))
    ensures s.key !in s.status ==> r == Returns(Null)
    ensures s.key == LocationKey && Truthy(Get(s.status, s.key)) ==>
      var loc := Get(s.status, s.key);
      && (r.Raises? <==> !loc.Obj?)
      && (r.Returns? && r.value.Str? <==> loc.Obj? && Truthy(Get(loc.fields, "lat")) && Truthy(Get(loc.fields, "lon")))
      && (r.Returns? && !r.value.Str? ==> r.value == Null)
    ensures s.key == LocationKey && !Truthy(Get(s.status, s.key)) ==> r == Returns(Get(s.status, s.key))
    ensures s.key == LocationKey && Truthy(Get(s.status, s.key)) && Get(s.status, s.key).Obj? ==>
      var lat, lon := Get(Get(s.status, s.key).fields, "lat"), Get(Get(s.status, s.key).fields, "lon");
      Truthy(lat) && Truthy(lon) ==> r == Returns(Str(LatLon(lat, lon, formatNumber)))
  {
    var value := Get(s.status, s.key);
    if s.key == LocationKey && Truthy(value) then
      if value.Obj? then
        var lat := Get(value.fields, "lat");
        var lon := Get(value.fields, "lon");
        if Truthy(lat) && Truthy(lon) then Returns(Str(LatLon(lat, lon, formatNumber))) else Returns(Null)
      else Raises
    else Returns(value)
  }

  /** The location string splits back into the two coordinates when their text
      holds no comma. */
  lemma LocationStateSplits(s: GenericSensor, formatNumber: Json -> string)
    requires s.key == LocationKey && s.key in s.status && s.status[s.key].Obj?
    requires var loc := s.status[s.key].fields;
      Truthy(Get(loc, "lat")) && Truthy(Get(loc, "lon"))
      && ',' !in formatNumber(Get(loc, "lat")) && ',' !in formatNumber(Get(loc, "lon"))
    ensures State(s, formatNumber).Returns? && State(s, formatNumber).value.Str?
    ensures var loc := s.status[s.key].fields;
      Text.Split(State(s, formatNumber).value.s, ',') == [formatNumber(Get(loc, "lat")), formatNumber(Get(loc, "lon"))]
  {
    var loc := s.status[s.key].fields;
    FalsyValues(s.status[s.key]);
    Text.SplitJoin([formatNumber(Get(loc, "lat")), formatNumber(Get(loc, "lon"))], ',');
  }

  /** The inner loop of setup: the sensors of one vehicle, with the
      `should_create` flag of each definition. */
  method CreateForVehicle(vehicle: Vehicle, granted: seq<string>, status: map<string, Json>,
                          defs: seq<SensorDef>, entryId: string)
    returns (created: seq<GenericSensor>)
    ensures created == PlanFor(vehicle, granted, status, defs, entryId)
  {
    created := [];
    var j := 0;
    while j < |defs|
      invariant 0 <= j <= |defs|
      invariant created == PlanFor(vehicle, granted, status, defs[..j], entryId)
    {
      var d := defs[j];
      var shouldCreate := false;
      if d.permission.None? {
        shouldCreate := true;
      } else if |granted| > 0 && d.permission.value in granted {
        shouldCreate := true;
      } else if d.key in status && status[d.key] != Null {
        shouldCreate := true;
      }
      if shouldCreate {
        created := created + [NewSensor(vehicle, status, d, entryId)];
      }
      assert defs[..j + 1][..j] == defs[..j];
      j := j + 1;
    }
    assert defs[..j] == defs;
  }

  /** The outer loop of setup, over the vehicles. */
  method CreateSensors(vehicles: seq<Vehicle>, permissions: seq<Option<seq<string>>>,
                       statuses: seq<map<string, Json>>, defs: seq<SensorDef>, entryId: string)
    returns (entities: seq<GenericSensor>)
    requires |permissions| == |vehicles| && |statuses| == |vehicles|
    ensures entities == Planned(vehicles, permissions, statuses, defs, entryId, |vehicles|)
  {
    entities := [];
    var i := 0;
    while i < |vehicles|
      invariant 0 <= i <= |vehicles|
      invariant entities == Planned(vehicles, permissions, statuses, defs, entryId, i)
    {
      var created := CreateForVehicle(vehicles[i], Permissions(permissions[i]), statuses[i], defs, entryId);
      entities := entities + created;
      i := i + 1;
    }
  }

  /** `async_setup_entry`: per vehicle, the answer of the permissions call (None
      when it raised) and the status dict. */
  method SetupEntry(vehicles: seq<Vehicle>, permissions: seq<Option<seq<string>>>,
                    statuses: seq<map<string, Json>>, entryId: string)
    returns (entities: seq<GenericSensor>)
    requires |permissions| == |vehicles| && |statuses| == |vehicles|
    ensures entities == Planned(vehicles, permissions, statuses, Definitions, entryId, |vehicles|)
  {
    entities := CreateSensors(vehicles, permissions, statuses, Definitions, entryId);
  }
}
