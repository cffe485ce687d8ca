/** Binary sensors: the 25-entry definition table, the signal gating in setup, the
    per-vehicle tracking dict, and the dotted-path webhook update of each sensor. */
module BinarySensor {
  import opened Json
  import opened Vehicles
  import Text
  import Registry

  datatype DeviceClass = Door | Lock | Window | Connectivity | Plug

  /** (signal_id, sensor_name, device_class, icon) */
  datatype Definition = Definition(signalId: string, name: string, deviceClass: Option<DeviceClass>, icon: string)

  const Definitions: seq<Definition> := [
    Definition("closure.doors.frontLeft.isOpen", "Front Left Door", Some(Door), "mdi:car-door"),
    Definition("closure.doors.frontRight.isOpen", "Front Right Door", Some(Door), "mdi:car-door"),
    Definition("closure.doors.backLeft.isOpen", "Back Left Door", Some(Door), "mdi:car-door"),
    Definition("closure.doors.backRight.isOpen", "Back Right Door", Some(Door), "mdi:car-door"),
    Definition("closure.doors.frontLeft.isLocked", "Front Left Door Lock", Some(Lock), "mdi:lock"),
    Definition("closure.doors.frontRight.isLocked", "Front Right Door Lock", Some(Lock), "mdi:lock"),
    Definition("closure.doors.backLeft.isLocked", "Back Left Door Lock", Some(Lock), "mdi:lock"),
    Definition("closure.doors.backRight.isLocked", "Back Right Door Lock", Some(Lock), "mdi:lock"),
    Definition("closure.windows.frontLeft.isOpen", "Front Left Window", Some(Window), "mdi:window-closed"),
    Definition("closure.windows.frontRight.isOpen", "Front Right Window", Some(Window), "mdi:window-closed"),
    Definition("closure.windows.backLeft.isOpen", "Back Left Window", Some(Window), "mdi:window-closed"),
    Definition("closure.windows.backRight.isOpen", "Back Right Window", Some(Window), "mdi:window-closed"),
    Definition("closure.frontTrunk.isOpen", "Front Trunk", Some(Door), "mdi:car-door"),
    Definition("closure.frontTrunk.isLocked", "Front Trunk Lock", Some(Lock), "mdi:lock"),
    Definition("closure.rearTrunk.isOpen", "Rear Trunk", Some(Door), "mdi:car-door"),
    Definition("closure.rearTrunk.isLocked", "Rear Trunk Lock", Some(Lock), "mdi:lock"),
    Definition("closure.sunroof.isOpen", "Sunroof", Some(Window), "mdi:window-closed"),
    Definition("closure.engineCover.isOpen", "Engine Cover", Some(Door), "mdi:car-door"),
    Definition("tractionBattery.isHeaterActive", "Battery Heater Active", None, "mdi:fire"),
    Definition("connectivity.isOnline", "Online", Some(Connectivity), "mdi:wifi"),
    Definition("connectivity.isAsleep", "Asleep", None, "mdi:sleep"),
    Definition("connectivity.isDigitalKeyPaired", "Digital Key Paired", None, "mdi:key"),
    Definition("surveillance.isEnabled", "Surveillance Enabled", None, "mdi:cctv"),
    Definition("charge.isFastChargerConnected", "Fast Charger Connected", None, "mdi:lightning-bolt"),
    Definition("charge.isPluggedIn", "Charging Cable Plugged In", Some(Plug), "mdi:power-plug")
  ]

  // Properties of the definition table

  lemma DefinitionCount()
    ensures |Definitions| == 25
  {
  }

  lemma SignalIdsDistinct()
    ensures forall i, j | 0 <= i < j < |Definitions| :: Definitions[i].signalId != Definitions[j].signalId
  {
  }

  lemma NamesDistinct()
    ensures forall i, j | 0 <= i < j < |Definitions| :: Definitions[i].name != Definitions[j].name
  {
  }

  lemma IconsAreMaterialDesign()
    ensures forall i | 0 <= i < |Definitions| :: |Definitions[i].icon| >= 4 && Definitions[i].icon[..4] == "mdi:"
  {
  }

  /** Lock entries show a lock, window entries a closed window, door entries a car door. */
  lemma IconsFollowDeviceClass()
    ensures forall i | 0 <= i < |Definitions| ::
      && (Definitions[i].deviceClass == Some(Lock) ==> Definitions[i].icon == "mdi:lock")
      && (Definitions[i].deviceClass == Some(Window) ==> Definitions[i].icon == "mdi:window-closed")
      && (Definitions[i].deviceClass == Some(Door) ==> Definitions[i].icon == "mdi:car-door")
  {
  }

  // Gating

  /** A non-empty signal set selects; an empty one (failed or empty answer) lets
      every definition through. */
  predicate ShouldCreate(d: Definition, available: set<string>)
  {
    available == {} || d.signalId in available
  }

  /** The (vehicle, definition) pairs created for one vehicle, in table order. */
  function PlanFor(v: Vehicle, available: set<string>, defs: seq<Definition>): seq<(Vehicle, Definition)>
  {
    if defs == [] then []
    else
      PlanFor(v, available, defs[..|defs| - 1])
      + (if ShouldCreate(defs[|defs| - 1], available) then [(v, defs[|defs| - 1])] else [])
  }

  /** At most one sensor per definition, and one for each when no signal is known. */
  lemma {:induction false} PlanForLength(v: Vehicle, available: set<string>, defs: seq<Definition>)
    ensures |PlanFor(v, available, defs)| <= |defs|
    ensures available == {} ==> |PlanFor(v, available, defs)| == |defs|
  {
    if defs != [] {
      PlanForLength(v, available, defs[..|defs| - 1]);
    }
  }

  /** The pairs created by setup for the first `n` vehicles, vehicle after vehicle. */
  function Planned(vehicles: seq<Vehicle>, signals: seq<Option<seq<string>>>, defs: seq<Definition>, n: nat): seq<(Vehicle, Definition)>
    requires |signals| == |vehicles| && n <= |vehicles|
  {
    if n == 0 then []
    else Planned(vehicles, signals, defs, n - 1) + PlanFor(vehicles[n - 1], AvailableSignals(signals[n - 1]), defs)
  }

  /** Every planned pair is for this vehicle and a definition of `defs` that passes
      the gate; every definition that passes is planned. */
  lemma {:induction false} PlanForMembers(v: Vehicle, available: set<string>, defs: seq<Definition>)
    ensures forall k | 0 <= k < |PlanFor(v, available, defs)| ::
      PlanFor(v, available, defs)[k].0 == v && PlanFor(v, available, defs)[k].1 in defs
    ensures forall d :: (v, d) in PlanFor(v, available, defs) <==> d in defs && ShouldCreate(d, available)
  {
    if defs != [] {
      var init := defs[..|defs| - 1];
      PlanForMembers(v, available, init);
      assert defs == init + [defs[|defs| - 1]];
    }
  }

  /** With a non-empty signal set a sensor is created exactly for the definitions
      whose signal is in the set; with an empty set every definition is created. */
  lemma GatingIff(v: Vehicle, fetched: Option<seq<string>>, d: Definition)
    ensures AvailableSignals(fetched) != {} ==>
      ((v, d) in PlanFor(v, AvailableSignals(fetched), Definitions) <==> d in Definitions && d.signalId in AvailableSignals(fetched))
    ensures AvailableSignals(fetched) == {} ==>
      ((v, d) in PlanFor(v, AvailableSignals(fetched), Definitions) <==> d in Definitions)
  {
    PlanForMembers(v, AvailableSignals(fetched), Definitions);
  }

  predicate SignalIdsUnique(plan: seq<(Vehicle, Definition)>)
  {
    forall i, j | 0 <= i < j < |plan| :: plan[i].1.signalId != plan[j].1.signalId
  }

  /** No two planned pairs share a vehicle id and a signal id: the key of the
      tracking dict is never reused. */
  predicate KeysUnique(plan: seq<(Vehicle, Definition)>)
  {
    forall i, j | 0 <= i < j < |plan| :: (plan[i].0.id, plan[i].1.signalId) != (plan[j].0.id, plan[j].1.signalId)
  }

  /** The signal ids of the pairs planned from `defs` are pairwise distinct when the
      signal ids of `defs` are. */
  lemma {:induction false} PlanForDistinct(v: Vehicle, available: set<string>, defs: seq<Definition>)
    requires forall i, j | 0 <= i < j < |defs| :: defs[i].signalId != defs[j].signalId
    ensures SignalIdsUnique(PlanFor(v, available, defs))
  {
    if defs != [] {
      var init := defs[..|defs| - 1];
      var last := defs[|defs| - 1];
      PlanForDistinct(v, available, init);
      PlanForMembers(v, available, init);
      var plan := PlanFor(v, available, defs);
      var head := PlanFor(v, available, init);
      var tail := if ShouldCreate(last, available) then [(v, last)] else [];
      assert plan == head + tail;
      forall i, j | 0 <= i < j < |plan| ensures plan[i].1.signalId != plan[j].1.signalId {
        if j < |head| {
          assert plan[i] == head[i] && plan[j] == head[j];
        } else {
          assert plan[j] == tail[0] && plan[j].1 == last;
          assert plan[i] == head[i];
          assert head[i].1 in init;
          var m :| 0 <= m < |init| && init[m] == head[i].1;
          assert defs[m] == init[m] && defs[|defs| - 1] == last;
          assert defs[m].signalId != defs[|defs| - 1].signalId;
          assert plan[i].1.signalId == defs[m].signalId;
        }
      }
    }
  }

  /** Every pair planned for the first `n` vehicles is for one of them. */
  lemma {:induction false} PlannedVehicles(vehicles: seq<Vehicle>, signals: seq<Option<seq<string>>>, n: nat)
    requires |signals| == |vehicles| && n <= |vehicles|
    ensures forall k | 0 <= k < |Planned(vehicles, signals, Definitions, n)| :: Planned(vehicles, signals, Definitions, n)[k].0 in vehicles[..n]
  {
    if n > 0 {
      PlannedVehicles(vehicles, signals, n - 1);
      PlanForMembers(vehicles[n - 1], AvailableSignals(signals[n - 1]), Definitions);
      assert vehicles[..n] == vehicles[..n - 1] + [vehicles[n - 1]];
    }
  }

  /** Appending one vehicle's pairs to pairs of other vehicles keeps the keys unique. */
  lemma KeysUniqueAppend(head: seq<(Vehicle, Definition)>, tail: seq<(Vehicle, Definition)>, v: Vehicle)
    requires KeysUnique(head) && SignalIdsUnique(tail)
    requires forall k | 0 <= k < |head| :: head[k].0.id != v.id
    requires forall k | 0 <= k < |tail| :: tail[k].0 == v
    ensures KeysUnique(head + tail)
  {
    var plan := head + tail;
    forall i, j | 0 <= i < j < |plan| ensures (plan[i].0.id, plan[i].1.signalId) != (plan[j].0.id, plan[j].1.signalId) {
      if j < |head| {
        assert plan[i] == head[i] && plan[j] == head[j];
      } else if i < |head| {
        assert plan[i] == head[i] && plan[j] == tail[j - |head|];
      } else {
        assert plan[i] == tail[i - |head|] && plan[j] == tail[j - |head|];
      }
    }
  }

  /** When the vehicle ids are distinct, no two created sensors share a vehicle id
      and a signal id. */
  lemma {:induction false} PlannedDistinct(vehicles: seq<Vehicle>, signals: seq<Option<seq<string>>>, n: nat)
    requires |signals| == |vehicles| && n <= |vehicles|
    requires forall i, j | 0 <= i < j < |vehicles| :: vehicles[i].id != vehicles[j].id
    ensures KeysUnique(Planned(vehicles, signals, Definitions, n))
  {
    if n > 0 {
      var v := vehicles[n - 1];
      var head := Planned(vehicles, signals, Definitions, n - 1);
      var tail := PlanFor(v, AvailableSignals(signals[n - 1]), Definitions);
      PlannedDistinct(vehicles, signals, n - 1);
      PlannedVehicles(vehicles, signals, n - 1);
      SignalIdsDistinct();
      PlanForDistinct(v, AvailableSignals(signals[n - 1]), Definitions);
      PlanForMembers(v, AvailableSignals(signals[n - 1]), Definitions);
      forall k | 0 <= k < |head| ensures head[k].0.id != v.id {
        var m :| 0 <= m < n - 1 && vehicles[..n - 1][m] == head[k].0;
        assert vehicles[m] == head[k].0;
      }
      KeysUniqueAppend(head, tail, v);
    }
  }

  class NissanBinarySensor {
    const vehicle: Vehicle
    const definition: Definition
    const entryId: string
    const name: string
    var isOn: bool
    /** Number of `async_write_ha_state` calls. */
    var stateWrites: nat

    constructor (vehicle: Vehicle, definition: Definition, entryId: string)
      ensures this.vehicle == vehicle && this.definition == definition && this.entryId == entryId
      ensures name == EntityName(vehicle, definition.name)
      ensures !isOn && stateWrites == 0
    {
      this.vehicle := vehicle;
      this.definition := definition;
      this.entryId := entryId;
      this.name := EntityName(vehicle, definition.name);
      isOn := false;
      stateWrites := 0;
    }

    function UniqueId(): string
    {
      Vehicles.UniqueId(vehicle.vin, definition.signalId)
    }

    function Info(): DeviceInfo
    {
      DeviceInfo({(Domain, vehicle.vin)}, None)
    }

    /** `_handle_webhook_data`: a non-dict payload or a path that does not resolve
        leaves the state alone; a resolved leaf sets `is_on` to its truth value. */
    method HandleWebhookData(data: Json)
      modifies this
      ensures var leaf := LookupPath(data, Text.Split(definition.signalId, '.'));
        if data.Obj? && leaf.Some?
        then isOn == Truthy(leaf.value) && stateWrites == old(stateWrites) + 1
        else isOn == old(isOn) && stateWrites == old(stateWrites)
    {
      if !data.Obj? {
        return;
      }
      var leaf := WalkPath(data, Text.Split(definition.signalId, '.'));
      if leaf.None? {
        return;
      }
      isOn := Truthy(leaf.value);
      stateWrites := stateWrites + 1;
    }
  }

  /** The walk of `_handle_webhook_data` down the payload, one key of the signal's
      path at a time, giving up at the first value that is not a dict or lacks the
      key. */
  method WalkPath(data: Json, parts: seq<string>) returns (leaf: Option<Json>)
    ensures leaf == LookupPath(data, parts)
  {
    var value := data;
    var i := 0;
    while i < |parts|
      invariant 0 <= i <= |parts|
      invariant LookupPath(data, parts[..i]) == Some(value)
    {
      if !(value.Obj? && parts[i] in value.fields) {
        LookupPathAppend(data, parts[..i], parts[i..]);
        assert parts[..i] + parts[i..] == parts;
        assert parts[i..][0] == parts[i];
        return None;
      }
      LookupPathAppend(data, parts[..i], [parts[i]]);
      assert parts[..i + 1] == parts[..i] + [parts[i]];
      value := value.fields[parts[i]];
      i := i + 1;
    }
    assert parts[..i] == parts;
    return Some(value);
  }

  /** A payload that carries the sensor's signal as nested dicts sets the sensor to
      the truth value of the leaf. */
  lemma NestedPayloadReachesSensor(signalId: string, leaf: Json)
    ensures Nest(Text.Split(signalId, '.'), leaf).Obj?
    ensures LookupPath(Nest(Text.Split(signalId, '.'), leaf), Text.Split(signalId, '.')) == Some(leaf)
  {
    LookupNest(Text.Split(signalId, '.'), leaf);
  }

  /** Two sensors of vehicles whose VINs hold no underscore share a unique id only
      when they share the VIN and the signal. */
  lemma UniqueIdsDistinct(a: NissanBinarySensor, b: NissanBinarySensor)
    requires '_' !in a.vehicle.vin && '_' !in b.vehicle.vin
    ensures a.UniqueId() == b.UniqueId() <==> a.vehicle.vin == b.vehicle.vin && a.definition.signalId == b.definition.signalId
  {
    UniqueIdInjective(a.vehicle.vin, a.definition.signalId, b.vehicle.vin, b.definition.signalId);
  }

  // Setup

  function Entries(es: seq<NissanBinarySensor>): seq<Registry.Entry<NissanBinarySensor>>
  {
    seq(|es|, k requires 0 <= k < |es| => Registry.Entry(es[k].vehicle.id, es[k].definition.signalId, es[k]))
  }

  lemma EntriesAppend(a: seq<NissanBinarySensor>, b: seq<NissanBinarySensor>)
    ensures Entries(a + b) == Entries(a) + Entries(b)
  {
  }

  /** The sensors realise the plan, one for one and in order. */
  predicate Realizes(es: seq<NissanBinarySensor>, plan: seq<(Vehicle, Definition)>, entryId: string)
  {
    |es| == |plan| && forall k | 0 <= k < |es| :: (es[k].vehicle, es[k].definition, es[k].entryId) == (plan[k].0, plan[k].1, entryId)
  }

  lemma RealizesAppend(a: seq<NissanBinarySensor>, p: seq<(Vehicle, Definition)>,
                       b: seq<NissanBinarySensor>, q: seq<(Vehicle, Definition)>, entryId: string)
    requires Realizes(a, p, entryId) && Realizes(b, q, entryId)
    ensures Realizes(a + b, p + q, entryId)
  {
    assert forall k | |a| <= k < |a + b| :: (a + b)[k] == b[k - |a|] && (p + q)[k] == q[k - |a|];
  }

  /** `tracking[vehicle.id][key] = entity` */
  method Record(tracking: Registry.Tracking<NissanBinarySensor>, entry: Registry.Entry<NissanBinarySensor>)
    requires tracking.table.Some?
    modifies tracking
    ensures tracking.table == Some(Registry.Put(old(tracking.table.value), entry))
  {
    tracking.table := Some(Registry.Put(tracking.table.value, entry));
  }

  /** The inner loop of setup for one vehicle: walks the definitions and creates and
      records the sensors that pass the gate. */
  method SetupVehicle(tracking: Registry.Tracking<NissanBinarySensor>, vehicle: Vehicle,
                      available: set<string>, defs: seq<Definition>, entryId: string)
    returns (created: seq<NissanBinarySensor>)
    requires tracking.table.Some?
    modifies tracking
    ensures Realizes(created, PlanFor(vehicle, available, defs), entryId)
    ensures forall k | 0 <= k < |created| :: fresh(created[k])
    ensures tracking.table == Some(Registry.PutAll(old(tracking.table.value), Entries(created)))
  {
    ghost var t0 := tracking.table.value;
    created := [];
    var j := 0;
    while j < |defs|
      invariant 0 <= j <= |defs|
      invariant Realizes(created, PlanFor(vehicle, available, defs[..j]), entryId)
      invariant forall k | 0 <= k < |created| :: fresh(created[k])
      invariant tracking.table == Some(Registry.PutAll(t0, Entries(created)))
    {
      var d := defs[j];
      assert defs[..j + 1][..j] == defs[..j];
      var shouldCreate := false;
      if available != {} {
        shouldCreate := d.signalId in available;
      } else {
        shouldCreate := true;
      }
      if shouldCreate {
        var sensor := new NissanBinarySensor(vehicle, d, entryId);
        var entry := Registry.Entry(vehicle.id, d.signalId, sensor);
        Registry.PutAllSnoc(t0, Entries(created), entry);
        EntriesAppend(created, [sensor]);
        created := created + [sensor];
        Record(tracking, entry);
      }
      j := j + 1;
    }
    assert defs[..j] == defs;
  }

  /** Setup's state after the first `i` vehicles: the sensors realise their plan
      and the tracking dict holds every seen vehicle's map and every sensor. */
  predicate SetupState(table: Option<Registry.Table<NissanBinarySensor>>, base: Registry.Table<NissanBinarySensor>,
                       vehicles: seq<Vehicle>, signals: seq<Option<seq<string>>>, defs: seq<Definition>,
                       i: nat, entities: seq<NissanBinarySensor>, entryId: string)
  {
    && |signals| == |vehicles| && i <= |vehicles|
    && Realizes(entities, Planned(vehicles, signals, defs, i), entryId)
    && table == Some(Registry.PutAll(Registry.EnsureVehicles(base, Ids(vehicles[..i])), Entries(entities)))
  }

  /** Vehicle `i`'s turn in setup: create its map in the tracking dict, then create
      and record the sensors the gate lets through. Stated against the sensors and
      the table built for the vehicles before it. */
  method SetupOne(tracking: Registry.Tracking<NissanBinarySensor>, vehicles: seq<Vehicle>,
                  signals: seq<Option<seq<string>>>, defs: seq<Definition>, i: nat, entryId: string,
                  ghost base: Registry.Table<NissanBinarySensor>, entities: seq<NissanBinarySensor>)
    returns (next: seq<NissanBinarySensor>)
    requires i < |vehicles|
    requires SetupState(tracking.table, base, vehicles, signals, defs, i, entities, entryId)
    modifies tracking
    ensures SetupState(tracking.table, base, vehicles, signals, defs, i + 1, next, entryId)
    ensures |entities| <= |next| && next[..|entities|] == entities
    ensures forall k | |entities| <= k < |next| :: fresh(next[k])
  {
    var vehicle := vehicles[i];
    ghost var ids := Ids(vehicles[..i]);
    IdsPrefix(vehicles, i);
    tracking.table := Some(Registry.EnsureVehicle(tracking.table.value, vehicle.id));
    var created := SetupVehicle(tracking, vehicle, AvailableSignals(signals[i]), defs, entryId);
    Registry.SetupStep(base, ids, Entries(entities), vehicle.id, Entries(created));
    EntriesAppend(entities, created);
    RealizesAppend(entities, Planned(vehicles, signals, defs, i), created, PlanFor(vehicle, AvailableSignals(signals[i]), defs), entryId);
    next := entities + created;
    assert next[..|entities|] == entities;
  }

  /** Setup's state before the first vehicle: nothing planned, the table as given. */
  lemma SetupStart(base: Registry.Table<NissanBinarySensor>, vehicles: seq<Vehicle>,
                   signals: seq<Option<seq<string>>>, defs: seq<Definition>, entryId: string)
    requires |signals| == |vehicles|
    ensures SetupState(Some(base), base, vehicles, signals, defs, 0, [], entryId)
  {
    assert vehicles[..0] == [];
    assert Entries([]) == [];
  }

  /** The loops of setup over a definition table. */
  method CreateSensors(tracking: Registry.Tracking<NissanBinarySensor>, vehicles: seq<Vehicle>,
                       signals: seq<Option<seq<string>>>, defs: seq<Definition>, entryId: string)
    returns (entities: seq<NissanBinarySensor>)
    requires |signals| == |vehicles|
    modifies tracking
    ensures Realizes(entities, Planned(vehicles, signals, defs, |vehicles|), entryId)
    ensures forall k | 0 <= k < |entities| :: fresh(entities[k])
    ensures tracking.table == Some(Registry.PutAll(Registry.EnsureVehicles(Registry.TableOrEmpty(old(tracking.table)), Ids(vehicles)), Entries(entities)))
  {
    ghost var base := Registry.TableOrEmpty(tracking.table);
    if tracking.table.None? {
      tracking.table := Some(map[]);
    }
    SetupStart(base, vehicles, signals, defs, entryId);
    entities := [];
    var i := 0;
    while i < |vehicles|
      invariant SetupState(tracking.table, base, vehicles, signals, defs, i, entities, entryId)
      invariant forall k | 0 <= k < |entities| :: fresh(entities[k])
    {
      entities := SetupOne(tracking, vehicles, signals, defs, i, entryId, base, entities);
      i := i + 1;
    }
    assert vehicles[..i] == vehicles;
  }

  /** `async_setup_entry`: one answer of the signals call per vehicle (None when it
      raised). Creates the planned sensors and records each one in
      `data["binary_sensors"][vehicle.id][signal_id]`, creating missing maps and
      keeping the ones that exist. */
  method SetupEntry(tracking: Registry.Tracking<NissanBinarySensor>, vehicles: seq<Vehicle>,
                    signals: seq<Option<seq<string>>>, entryId: string)
    returns (entities: seq<NissanBinarySensor>)
    requires |signals| == |vehicles|
    modifies tracking
    ensures Realizes(entities, Planned(vehicles, signals, Definitions, |vehicles|), entryId)
    ensures forall k | 0 <= k < |entities| :: fresh(entities[k])
    ensures tracking.table == Some(Registry.PutAll(Registry.EnsureVehicles(Registry.TableOrEmpty(old(tracking.table)), Ids(vehicles)), Entries(entities)))
  {
    entities := CreateSensors(tracking, vehicles, signals, Definitions, entryId);
  }

  /** When the vehicles' ids are distinct, every sensor setup created is found in
      the tracking dict under its vehicle id and signal id. */
  lemma SetupRecordsEverySensor(base: Registry.Table<NissanBinarySensor>, vehicles: seq<Vehicle>,
                                signals: seq<Option<seq<string>>>, entryId: string,
                                entities: seq<NissanBinarySensor>, k: nat)
    requires |signals| == |vehicles|
    requires forall i, j | 0 <= i < j < |vehicles| :: vehicles[i].id != vehicles[j].id
    requires Realizes(entities, Planned(vehicles, signals, Definitions, |vehicles|), entryId)
    requires k < |entities|
    ensures Registry.Lookup(Registry.PutAll(Registry.EnsureVehicles(base, Ids(vehicles)), Entries(entities)),
                            entities[k].vehicle.id, entities[k].definition.signalId) == Some(entities[k])
  {
    PlannedDistinct(vehicles, signals, |vehicles|);
    var plan := Planned(vehicles, signals, Definitions, |vehicles|);
    var es := Entries(entities);
    forall i, j | 0 <= i < j < |es| ensures (es[i].vehicleId, es[i].key) != (es[j].vehicleId, es[j].key) {
      assert (plan[i].0.id, plan[i].1.signalId) != (plan[j].0.id, plan[j].1.signalId);
    }
    Registry.PutAllFindsEach(Registry.EnsureVehicles(base, Ids(vehicles)), es, k);
  }
}
