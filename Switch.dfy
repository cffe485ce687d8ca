/** The charging switch: a per-vehicle entity gated on the `charge.state` signal
    and the charge-control permission, started and stopped through the client,
    seeded from the charge status and updated from webhook payloads. */
module Switch {
  import opened Json
  import opened Vehicles
  import Registry

  const ChargeStateSignal := "charge.state"
  const TrackingKey := "charging"
  const IconOn := "mdi:battery-charging"
  const IconOff := "mdi:battery"

  /** The webhook rule: only `"CHARGING"` means on. */
  predicate WebhookOn(state: Json)
  {
    state == Str("CHARGING")
  }

  /** The initial-fetch rule: `"CHARGING"` and `"UNKNOWN"` both mean on. */
  predicate InitialOn(state: Json)
  {
    state == Str("CHARGING") || state == Str("UNKNOWN")
  }

  /** The two rules agree on every state except `"UNKNOWN"`, which the initial
      fetch reads as on and a webhook push reads as off. */
  lemma RulesDisagreeOnlyOnUnknown(state: Json)
    ensures InitialOn(state) != WebhookOn(state) <==> state == Str("UNKNOWN")
    ensures WebhookOn(state) ==> InitialOn(state)
  {
  }

  /** What the initial charge-status fetch sets `_is_on` to, or None when it
      leaves it alone: the fetch raised, the status is falsy or has no `state`,
      or it is not a dict (indexing a string or a list by `"state"` raises a
      TypeError that the handler swallows). */
  function InitialState(status: Outcome<Json>): (r: Option<bool>)
    ensures r.Some? <==> status.Returns? && status.value.Obj? && "state" in status.value.fields
    ensures r.Some? ==> r.value == InitialOn(status.value.fields["state"])
  {
    match status
    case Raises => None
    case Returns(j) =>
      if Truthy(j) && j.Obj? && "state" in j.fields then Some(InitialOn(j.fields["state"])) else None
  }

  /** The charge state a webhook payload carries: `data["charge"]["state"]`. */
  function WebhookState(data: Json): (r: Option<Json>)
    ensures r.Some? <==> data.Obj? && "charge" in data.fields && data.fields["charge"].Obj?
                         && "state" in data.fields["charge"].fields
    ensures r.Some? ==> r.value == data.fields["charge"].fields["state"]
  {
    LookupPathTwo(data, "charge", "state");
    LookupPath(data, ["charge", "state"])
  }

  /** The icon shows the state: each state has its own icon. */
  function IconFor(on: bool): (r: string)
    ensures r == IconOn <==> on
    ensures r == IconOff <==> !on
  {
    if on then IconOn else IconOff
  }

  class NissanChargingSwitch {
    const vehicle: Vehicle
    const entryId: string
    const name: string
    var isOn: bool
    var available: bool
    /** Number of `async_write_ha_state` calls. */
    var stateWrites: nat

    constructor (vehicle: Vehicle, entryId: string)
      ensures this.vehicle == vehicle && this.entryId == entryId
      ensures name == EntityName(vehicle, "Charging")
      ensures !isOn && available && stateWrites == 0
    {
      this.vehicle := vehicle;
      this.entryId := entryId;
      name := EntityName(vehicle, "Charging");
      isOn := false;
      available := true;
      stateWrites := 0;
    }

    function UniqueId(): string
    {
      Vehicles.UniqueId(vehicle.vin, "charging_switch")
    }

    function Icon(): string
      reads this
    {
      IconFor(isOn)
    }

    function Info(): DeviceInfo
    {
      DeviceInfo({(Domain, vehicle.vin)}, None)
    }

    /** `async_added_to_hass`: seeds `_is_on` from the charge status. It does not
        write the state. */
    method AddedToHass(status: Outcome<Json>)
      modifies this
      ensures isOn == (if InitialState(status).Some? then InitialState(status).value else old(isOn))
      ensures available == old(available) && stateWrites == old(stateWrites)
    {
      if status.Raises? {
        return;
      }
      var j := status.value;
      if Truthy(j) && j.Obj? && "state" in j.fields {
        isOn := j.fields["state"] == Str("CHARGING") || j.fields["state"] == Str("UNKNOWN");
      }
    }

    /** `_handle_webhook_data`: takes the payload's charge state when it has one,
        and writes the state only when `_is_on` changed. */
    method HandleWebhookData(data: Json)
      modifies this
      ensures available == old(available)
      ensures var s := WebhookState(data);
        && isOn == (if s.Some? then WebhookOn(s.value) else old(isOn))
        && stateWrites == old(stateWrites) + (if isOn != old(isOn) then 1 else 0)
    {
      if !data.Obj? {
        return;
      }
      if "charge" in data.fields && data.fields["charge"].Obj? {
        var charge := data.fields["charge"];
        if "state" in charge.fields {
          var state := charge.fields["state"];
          var oldValue := isOn;
          isOn := state == Str("CHARGING");
          if oldValue != isOn {
            stateWrites := stateWrites + 1;
          }
        }
      }
    }

    /** `async_turn_on`: asks the client to start charging. On success the switch
        is on; if the call raised, `_is_on` is kept and the switch becomes
        unavailable for good. Either way the state is written once. */
    method TurnOn(outcome: Outcome<()>) returns (call: ClientCall)
      modifies this
      ensures call == StartCharge(vehicle.id)
      ensures outcome.Returns? ==> isOn && available == old(available)
      ensures outcome.Raises? ==> isOn == old(isOn) && !available
      ensures stateWrites == old(stateWrites) + 1
    {
      call := StartCharge(vehicle.id);
      if outcome.Returns? {
        isOn := true;
      } else {
        available := false;
      }
      stateWrites := stateWrites + 1;
    }

    /** `async_turn_off`: the same with `stop_charge`, leaving the switch off. */
    method TurnOff(outcome: Outcome<()>) returns (call: ClientCall)
      modifies this
      ensures call == StopCharge(vehicle.id)
      ensures outcome.Returns? ==> !isOn && available == old(available)
      ensures outcome.Raises? ==> isOn == old(isOn) && !available
      ensures stateWrites == old(stateWrites) + 1
    {
      call := StopCharge(vehicle.id);
      if outcome.Returns? {
        isOn := false;
      } else {
        available := false;
      }
      stateWrites := stateWrites + 1;
    }
  }

  // Setup

  function Entries(es: seq<NissanChargingSwitch>): seq<Registry.Entry<NissanChargingSwitch>>
  {
    seq(|es|, k requires 0 <= k < |es| => Registry.Entry(es[k].vehicle.id, TrackingKey, es[k]))
  }

  lemma EntriesAppend(a: seq<NissanChargingSwitch>, b: seq<NissanChargingSwitch>)
    ensures Entries(a + b) == Entries(a) + Entries(b)
  {
  }

  /** The switches realise the plan, one for one and in order. */
  predicate Realizes(es: seq<NissanChargingSwitch>, plan: seq<Vehicle>, entryId: string)
  {
    |es| == |plan| && forall k | 0 <= k < |es| :: es[k].vehicle == plan[k] && es[k].entryId == entryId
  }

  lemma RealizesAppend(a: seq<NissanChargingSwitch>, p: seq<Vehicle>,
                       b: seq<NissanChargingSwitch>, q: seq<Vehicle>, entryId: string)
    requires Realizes(a, p, entryId) && Realizes(b, q, entryId)
    ensures Realizes(a + b, p + q, entryId)
  {
    assert forall k | |a| <= k < |a + b| :: (a + b)[k] == b[k - |a|] && (p + q)[k] == q[k - |a|];
  }

  /** The body of setup's loop for one vehicle: create its map in the tracking
      dict, then create and record its switch when it passes the gate. */
  method SetupVehicle(tracking: Registry.Tracking<NissanChargingSwitch>, vehicle: Vehicle,
                      signals: Option<seq<string>>, permissions: Option<seq<string>>, entryId: string)
    returns (created: seq<NissanChargingSwitch>)
    requires tracking.table.Some?
    modifies tracking
    ensures Realizes(created, ControlStep(ChargeStateSignal, vehicle, signals, permissions), entryId)
    ensures forall k | 0 <= k < |created| :: fresh(created[k])
    ensures tracking.table == Some(Registry.PutAll(Registry.EnsureVehicle(old(tracking.table.value), vehicle.id), Entries(created)))
  {
    tracking.table := Some(Registry.EnsureVehicle(tracking.table.value, vehicle.id));
    var available := AvailableSignals(signals);
    var granted := Permissions(permissions);
    created := [];
    if (ChargeStateSignal in available || available == {}) && "control_charge" in granted {
      var switch := new NissanChargingSwitch(vehicle, entryId);
      var entry := Registry.Entry(vehicle.id, TrackingKey, switch);
      ghost var before := tracking.table.value;
      tracking.table := Some(Registry.Put(tracking.table.value, entry));
      created := [switch];
      assert Entries(created) == [entry];
      Registry.PutAllSnoc(before, [], entry);
    }
  }

  /** Setup's state after the first `i` vehicles: the switches realise their plan
      and the tracking dict holds every seen vehicle's map and every switch. */
  predicate SetupState(table: Option<Registry.Table<NissanChargingSwitch>>, base: Registry.Table<NissanChargingSwitch>,
                       vehicles: seq<Vehicle>, signals: seq<Option<seq<string>>>, permissions: seq<Option<seq<string>>>,
                       i: nat, entities: seq<NissanChargingSwitch>, entryId: string)
  {
    && |signals| == |vehicles| && |permissions| == |vehicles| && i <= |vehicles|
    && Realizes(entities, ControlPlanned(ChargeStateSignal, vehicles, signals, permissions, i), entryId)
    && table == Some(Registry.PutAll(Registry.EnsureVehicles(base, Ids(vehicles[..i])), Entries(entities)))
  }

  /** Vehicle `i`'s turn in setup: from the state after the vehicles before it to
      the state after it, appending only new switches. */
  method SetupOne(tracking: Registry.Tracking<NissanChargingSwitch>, vehicles: seq<Vehicle>,
                  signals: seq<Option<seq<string>>>, permissions: seq<Option<seq<string>>>, i: nat, entryId: string,
                  ghost base: Registry.Table<NissanChargingSwitch>, entities: seq<NissanChargingSwitch>)
    returns (next: seq<NissanChargingSwitch>)
    requires i < |vehicles|
    requires SetupState(tracking.table, base, vehicles, signals, permissions, i, entities, entryId)
    modifies tracking
    ensures SetupState(tracking.table, base, vehicles, signals, permissions, i + 1, next, entryId)
    ensures |entities| <= |next| && next[..|entities|] == entities
    ensures forall k | |entities| <= k < |next| :: fresh(next[k])
  {
    var created := SetupVehicle(tracking, vehicles[i], signals[i], permissions[i], entryId);
    IdsPrefix(vehicles, i);
    Registry.SetupStep(base, Ids(vehicles[..i]), Entries(entities), vehicles[i].id, Entries(created));
    EntriesAppend(entities, created);
    ControlPlannedNext(ChargeStateSignal, vehicles, signals, permissions, i);
    RealizesAppend(entities, ControlPlanned(ChargeStateSignal, vehicles, signals, permissions, i), created,
                   ControlStep(ChargeStateSignal, vehicles[i], signals[i], permissions[i]), entryId);
    next := entities + created;
    assert next[..|entities|] == entities;
  }

  /** Setup's state before the first vehicle: nothing planned, the table as given. */
  lemma SetupStart(base: Registry.Table<NissanChargingSwitch>, vehicles: seq<Vehicle>, signals: seq<Option<seq<string>>>,
                   permissions: seq<Option<seq<string>>>, entryId: string)
    requires |signals| == |vehicles| && |permissions| == |vehicles|
    ensures SetupState(Some(base), base, vehicles, signals, permissions, 0, [], entryId)
  {
    assert vehicles[..0] == [];
    assert Entries([]) == [];
  }

  /** The loop of setup over the vehicles, from the tracking dict `base` with the
      `data["switches"]` slot present. */
  method SetupVehicles(tracking: Registry.Tracking<NissanChargingSwitch>, vehicles: seq<Vehicle>,
                       signals: seq<Option<seq<string>>>, permissions: seq<Option<seq<string>>>, entryId: string,
                       ghost base: Registry.Table<NissanChargingSwitch>)
    returns (entities: seq<NissanChargingSwitch>)
    requires |signals| == |vehicles| && |permissions| == |vehicles|
    requires tracking.table == Some(base)
    modifies tracking
    ensures SetupState(tracking.table, base, vehicles, signals, permissions, |vehicles|, entities, entryId)
    ensures forall k | 0 <= k < |entities| :: fresh(entities[k])
  {
    SetupStart(base, vehicles, signals, permissions, entryId);
    entities := [];
    var i := 0;
    while i < |vehicles|
      invariant SetupState(tracking.table, base, vehicles, signals, permissions, i, entities, entryId)
      invariant forall k | 0 <= k < |entities| :: fresh(entities[k])
    {
      entities := SetupOne(tracking, vehicles, signals, permissions, i, entryId, base, entities);
      i := i + 1;
    }
  }

  /** `async_setup_entry`: per vehicle, the answers of the signals and permissions
      calls (None when the call raised). Creates the planned switches and records
      each one in `data["switches"][vehicle.id]["charging"]`, after creating every
      vehicle's map. */
  method SetupEntry(tracking: Registry.Tracking<NissanChargingSwitch>, vehicles: seq<Vehicle>,
                    signals: seq<Option<seq<string>>>, permissions: seq<Option<seq<string>>>, entryId: string)
    returns (entities: seq<NissanChargingSwitch>)
    requires |signals| == |vehicles| && |permissions| == |vehicles|
    modifies tracking
    ensures Realizes(entities, ControlPlanned(ChargeStateSignal, vehicles, signals, permissions, |vehicles|), entryId)
    ensures forall k | 0 <= k < |entities| :: fresh(entities[k])
    ensures tracking.table == Some(Registry.PutAll(Registry.EnsureVehicles(Registry.TableOrEmpty(old(tracking.table)), Ids(vehicles)), Entries(entities)))
  {
    ghost var base := Registry.TableOrEmpty(tracking.table);
    if tracking.table.None? {
      tracking.table := Some(map[]);
    }
    entities := SetupVehicles(tracking, vehicles, signals, permissions, entryId, base);
    assert vehicles[..|vehicles|] == vehicles;
  }
}
