/** The charge-limit number: a per-vehicle entity gated on the `charge.limit`
    signal and the charge-control permission, updated from webhook payloads and
    set through the vehicle API. */
module Number {
  import opened Json
  import opened Vehicles
  import Registry

  const ChargeLimitSignal := "charge.limit"
  const TrackingKey := "charge_limit"
  const DefaultLimit := 80.0
  /** The bounds the entity advertises: 0 to 100 in steps of 1, in percent. */
  const MinValue := 0
  const MaxValue := 100
  const Step := 1
  const Unit := "%"
  const Icon := "mdi:battery-charging-100"

  /** `int(max(0, min(100, value)))`: clamp to 0..100, then truncate (toward zero,
      which is the floor on this range). */
  function RequestedLimit(v: real): (r: int)
    ensures MinValue <= r <= MaxValue
    ensures 0.0 <= v <= 100.0 ==> r as real <= v < r as real + 1.0
    ensures v < 0.0 ==> r == 0
    ensures v >= 100.0 ==> r == 100
  {
    var clamped := if v > 100.0 then 100.0 else if v < 0.0 then 0.0 else v;
    clamped.Floor
  }

  /** A whole percentage is sent as it is. */
  lemma RequestedLimitOfPercentage(n: int)
    requires MinValue <= n <= MaxValue
    ensures RequestedLimit(n as real) == n
  {
  }

  /** Requesting the limit that was sent sends it again. */
  lemma RequestedLimitIdempotent(v: real)
    ensures RequestedLimit(RequestedLimit(v) as real) == RequestedLimit(v)
  {
    RequestedLimitOfPercentage(RequestedLimit(v));
  }

  /** A larger request never sends a smaller limit. */
  lemma RequestedLimitMonotone(v: real, w: real)
    requires v <= w
    ensures RequestedLimit(v) <= RequestedLimit(w)
  {
  }

  /** 200 and 204 are the statuses the API answers a successful set with. */
  predicate Accepted(outcome: HttpOutcome)
  {
    outcome.Responded? && outcome.status in {200, 204}
  }

  /** The new value a webhook payload carries: `float(data["charge"]["limit"])`.
      None when the payload is not a dict, holds no `charge` dict or no `limit`,
      or when `float` raises (TypeError, ValueError). */
  function WebhookLimit(data: Json, parseFloat: string -> Option<real>): (r: Option<real>)
    ensures r.Some? <==> LookupPath(data, ["charge", "limit"]).Some? && PyFloat(LookupPath(data, ["charge", "limit"]).value, parseFloat).Returns?
    ensures r.Some? ==> PyFloat(LookupPath(data, ["charge", "limit"]).value, parseFloat) == Returns(r.value)
  {
    var limit := LookupPath(data, ["charge", "limit"]);
    if limit.Some? && PyFloat(limit.value, parseFloat).Returns? then Some(PyFloat(limit.value, parseFloat).value) else None
  }

  /** A numeric limit under `charge` is taken as it is; a payload without a
      `charge` dict changes nothing. */
  lemma WebhookLimitCases(x: real, other: map<string, Json>, parseFloat: string -> Option<real>)
    ensures WebhookLimit(Obj(other["charge" := Obj(map["limit" := Num(x)])]), parseFloat) == Some(x)
    ensures ("charge" !in other || !other["charge"].Obj?) ==> WebhookLimit(Obj(other), parseFloat) == None
    ensures WebhookLimit(Obj(map["charge" := Obj(map["limit" := Null])]), parseFloat) == None
  {
    LookupPathTwo(Obj(other["charge" := Obj(map["limit" := Num(x)])]), "charge", "limit");
    LookupPathTwo(Obj(other), "charge", "limit");
    LookupPathTwo(Obj(map["charge" := Obj(map["limit" := Null])]), "charge", "limit");
  }

  class NissanChargeLimitNumber {
    const vehicle: Vehicle
    const entryId: string
    const name: string
    var value: real
    var available: bool
    /** Number of `async_write_ha_state` calls. */
    var stateWrites: nat

    constructor (vehicle: Vehicle, entryId: string)
      ensures this.vehicle == vehicle && this.entryId == entryId
      ensures name == EntityName(vehicle, "Charge Limit")
      ensures value == DefaultLimit && available && stateWrites == 0
    {
      this.vehicle := vehicle;
      this.entryId := entryId;
      name := EntityName(vehicle, "Charge Limit");
      value := DefaultLimit;
      available := true;
      stateWrites := 0;
    }

    function UniqueId(): string
    {
      Vehicles.UniqueId(vehicle.vin, "charge_limit")
    }

    function Info(): DeviceInfo
    {
      DeviceInfo({(Domain, vehicle.vin)}, None)
    }

    /** `_handle_webhook_data`: takes the payload's limit when it has one that
        `float` accepts, and writes the state only when the value changed. */
    method HandleWebhookData(data: Json, parseFloat: string -> Option<real>)
      modifies this
      ensures available == old(available)
      ensures var u := WebhookLimit(data, parseFloat);
        && value == (if u.Some? then u.value else old(value))
        && stateWrites == old(stateWrites) + (if u.Some? && u.value != old(value) then 1 else 0)
    {
      LookupPathTwo(data, "charge", "limit");
      if !data.Obj? {
        return;
      }
      if "charge" in data.fields && data.fields["charge"].Obj? {
        var charge := data.fields["charge"];
        if "limit" in charge.fields {
          var limit := charge.fields["limit"];
          var parsed := PyFloat(limit, parseFloat);
          if parsed.Raises? {
            return;
          }
          var oldValue := value;
          value := parsed.value;
          if oldValue != value {
            stateWrites := stateWrites + 1;
          }
        }
      }
    }

    /** `async_set_value`: posts the clamped, truncated limit. An accepted answer
        stores it; any other status, or an exception, makes the entity unavailable
        for good (nothing sets it available again). */
    method SetValue(requested: real, outcome: HttpOutcome) returns (call: ClientCall)
      modifies this
      ensures call == SetChargeLimit(vehicle.id, RequestedLimit(requested))
      ensures Accepted(outcome) ==> value == RequestedLimit(requested) as real && available == old(available)
      ensures !Accepted(outcome) ==> value == old(value) && !available
      ensures stateWrites == old(stateWrites) + 1
    {
      var limit := RequestedLimit(requested);
      call := SetChargeLimit(vehicle.id, limit);
      if outcome.Responded? && (outcome.status == 200 || outcome.status == 204) {
        value := limit as real;
      } else {
        available := false;
      }
      stateWrites := stateWrites + 1;
    }
  }

  // Setup

  function Entries(es: seq<NissanChargeLimitNumber>): seq<Registry.Entry<NissanChargeLimitNumber>>
  {
    seq(|es|, k requires 0 <= k < |es| => Registry.Entry(es[k].vehicle.id, TrackingKey, es[k]))
  }

  lemma EntriesAppend(a: seq<NissanChargeLimitNumber>, b: seq<NissanChargeLimitNumber>)
    ensures Entries(a + b) == Entries(a) + Entries(b)
  {
  }

  /** The numbers realise the plan, one for one and in order. */
  predicate Realizes(es: seq<NissanChargeLimitNumber>, plan: seq<Vehicle>, entryId: string)
  {
    |es| == |plan| && forall k | 0 <= k < |es| :: es[k].vehicle == plan[k] && es[k].entryId == entryId
  }

  lemma RealizesAppend(a: seq<NissanChargeLimitNumber>, p: seq<Vehicle>,
                       b: seq<NissanChargeLimitNumber>, q: seq<Vehicle>, entryId: string)
    requires Realizes(a, p, entryId) && Realizes(b, q, entryId)
    ensures Realizes(a + b, p + q, entryId)
  {
    assert forall k | |a| <= k < |a + b| :: (a + b)[k] == b[k - |a|] && (p + q)[k] == q[k - |a|];
  }

  /** The body of setup's loop for one vehicle: create its map in the tracking
      dict, then create and record its number when it passes the gate. */
  method SetupVehicle(tracking: Registry.Tracking<NissanChargeLimitNumber>, vehicle: Vehicle,
                      signals: Option<seq<string>>, permissions: Option<seq<string>>, entryId: string)
    returns (created: seq<NissanChargeLimitNumber>)
    requires tracking.table.Some?
    modifies tracking
    ensures Realizes(created, ControlStep(ChargeLimitSignal, vehicle, signals, permissions), entryId)
    ensures forall k | 0 <= k < |created| :: fresh(created[k])
    ensures tracking.table == Some(Registry.PutAll(Registry.EnsureVehicle(old(tracking.table.value), vehicle.id), Entries(created)))
  {
    tracking.table := Some(Registry.EnsureVehicle(tracking.table.value, vehicle.id));
    var available := AvailableSignals(signals);
    var granted := Permissions(permissions);
    created := [];
    if (ChargeLimitSignal in available || available == {}) && "control_charge" in granted {
      var number := new NissanChargeLimitNumber(vehicle, entryId);
      var entry := Registry.Entry(vehicle.id, TrackingKey, number);
      ghost var before := tracking.table.value;
      tracking.table := Some(Registry.Put(tracking.table.value, entry));
      created := [number];
      assert Entries(created) == [entry];
      Registry.PutAllSnoc(before, [], entry);
    }
  }

  /** Setup's state after the first `i` vehicles: the numbers realise their plan
      and the tracking dict holds every seen vehicle's map and every number. */
  predicate SetupState(table: Option<Registry.Table<NissanChargeLimitNumber>>, base: Registry.Table<NissanChargeLimitNumber>,
                       vehicles: seq<Vehicle>, signals: seq<Option<seq<string>>>, permissions: seq<Option<seq<string>>>,
                       i: nat, entities: seq<NissanChargeLimitNumber>, entryId: string)
  {
    && |signals| == |vehicles| && |permissions| == |vehicles| && i <= |vehicles|
    && Realizes(entities, ControlPlanned(ChargeLimitSignal, vehicles, signals, permissions, i), entryId)
    && table == Some(Registry.PutAll(Registry.EnsureVehicles(base, Ids(vehicles[..i])), Entries(entities)))
  }

  /** Vehicle `i`'s turn in setup: from the state after the vehicles before it to
      the state after it, appending only new numbers. */
  method SetupOne(tracking: Registry.Tracking<NissanChargeLimitNumber>, vehicles: seq<Vehicle>,
                  signals: seq<Option<seq<string>>>, permissions: seq<Option<seq<string>>>, i: nat, entryId: string,
                  ghost base: Registry.Table<NissanChargeLimitNumber>, entities: seq<NissanChargeLimitNumber>)
    returns (next: seq<NissanChargeLimitNumber>)
    requires i < |vehicles|
    requires SetupState(tracking.table, base, vehicles, signals, permissions, i, entities, entryId)
    modifies tracking
    ensures SetupState(tracking.table, base, vehicles, signals, permissions, i + 1, next, entryId)
    ensures |entities| <= |next| && next[..|entities|] == entities
    ensures forall k | |entities| <= k < |next| :: fresh(next[k])
  {
    var created := SetupVehicle(tracking, vehicles[i], signals[i], permissions[i], entryId);
    IdsPrefix(vehicles, i);
    Registry.SetupStep(base, Ids(vehicles[..i]), Entries(entities), vehicles[i].id, Entries(created));
    EntriesAppend(entities, created);
    ControlPlannedNext(ChargeLimitSignal, vehicles, signals, permissions, i);
    RealizesAppend(entities, ControlPlanned(ChargeLimitSignal, vehicles, signals, permissions, i), created,
                   ControlStep(ChargeLimitSignal, vehicles[i], signals[i], permissions[i]), entryId);
    next := entities + created;
    assert next[..|entities|] == entities;
  }

  /** Setup's state before the first vehicle: nothing planned, the table as given. */
  lemma SetupStart(base: Registry.Table<NissanChargeLimitNumber>, vehicles: seq<Vehicle>, signals: seq<Option<seq<string>>>,
                   permissions: seq<Option<seq<string>>>, entryId: string)
    requires |signals| == |vehicles| && |permissions| == |vehicles|
    ensures SetupState(Some(base), base, vehicles, signals, permissions, 0, [], entryId)
  {
    assert vehicles[..0] == [];
    assert Entries([]) == [];
  }

  /** The loop of setup over the vehicles, from the tracking dict `base` with the
      `data["numbers"]` slot present. */
  method SetupVehicles(tracking: Registry.Tracking<NissanChargeLimitNumber>, vehicles: seq<Vehicle>,
                       signals: seq<Option<seq<string>>>, permissions: seq<Option<seq<string>>>, entryId: string,
                       ghost base: Registry.Table<NissanChargeLimitNumber>)
    returns (entities: seq<NissanChargeLimitNumber>)
    requires |signals| == |vehicles| && |permissions| == |vehicles|
    requires tracking.table == Some(base)
    modifies tracking
    ensures SetupState(tracking.table, base, vehicles, signals, permissions, |vehicles|, entities, entryId)
    ensures forall k | 0 <= k < |entities| :: fresh(entities[k])
  {
    SetupStart(base, vehicles, signals, permissions, entryId);
    entities := [];
    var i := 0;
    while i < |vehicles|
      invariant SetupState(tracking.table, base, vehicles, signals, permissions, i, entities, entryId)
      invariant forall k | 0 <= k < |entities| :: fresh(entities[k])
    {
      entities := SetupOne(tracking, vehicles, signals, permissions, i, entryId, base, entities);
      i := i + 1;
    }
  }

  /** `async_setup_entry`: per vehicle, the answers of the signals and permissions
      calls (None when the call raised). Creates the planned numbers and records
      each one in `data["numbers"][vehicle.id]["charge_limit"]`, after creating
      every vehicle's map. */
  method SetupEntry(tracking: Registry.Tracking<NissanChargeLimitNumber>, vehicles: seq<Vehicle>,
                    signals: seq<Option<seq<string>>>, permissions: seq<Option<seq<string>>>, entryId: string)
    returns (entities: seq<NissanChargeLimitNumber>)
    requires |signals| == |vehicles| && |permissions| == |vehicles|
    modifies tracking
    ensures Realizes(entities, ControlPlanned(ChargeLimitSignal, vehicles, signals, permissions, |vehicles|), entryId)
    ensures forall k | 0 <= k < |entities| :: fresh(entities[k])
    ensures tracking.table == Some(Registry.PutAll(Registry.EnsureVehicles(Registry.TableOrEmpty(old(tracking.table)), Ids(vehicles)), Entries(entities)))
  {
    ghost var base := Registry.TableOrEmpty(tracking.table);
    if tracking.table.None? {
      tracking.table := Some(map[]);
    }
    entities := SetupVehicles(tracking, vehicles, signals, permissions, entryId, base);
    assert vehicles[..|vehicles|] == vehicles;
  }
}
