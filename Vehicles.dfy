/** The vehicle record every platform receives from the client, the naming rules
    the entities build from it, and the calls the entities make on the client. */
module Vehicles {
  import opened Json
  import Text

  const Domain: string := "nissan_na"

  /** A vehicle as listed by the client: the provider's vehicle id, the VIN and the
      optional descriptive attributes (absent or None both read as None). */
  datatype Vehicle = Vehicle(
    id: string,
    vin: string,
    nickname: Option<string>,
    year: Option<int>,
    make: Option<string>,
    model: Option<string>)

  predicate StrTruthy(s: Option<string>)
  {
    s.Some? && s.value != ""
  }

  predicate IntTruthy(n: Option<int>)
  {
    n.Some? && n.value != 0
  }

  /** True when year, make and model are all truthy, so "year make model" is used. */
  predicate HasYearMakeModel(v: Vehicle)
  {
    IntTruthy(v.year) && StrTruthy(v.make) && StrTruthy(v.model)
  }

  /** The f-string "{year} {make} {model}". */
  function YearMakeModel(v: Vehicle): string
    requires HasYearMakeModel(v)
  {
    Text.DecimalString(v.year.value) + " " + v.make.value + " " + v.model.value
  }

  /** The display name shared by the sensor, binary sensor, number, switch, lock and
      tracker entities: a truthy nickname, else "year make model" when all three are
      truthy, else the VIN. */
  function DisplayName(v: Vehicle): (r: string)
    ensures StrTruthy(v.nickname) ==> r == v.nickname.value
    ensures !StrTruthy(v.nickname) && HasYearMakeModel(v) ==> r == YearMakeModel(v)
    ensures !StrTruthy(v.nickname) && !HasYearMakeModel(v) ==> r == v.vin
  {
    if StrTruthy(v.nickname) then v.nickname.value
    else if HasYearMakeModel(v) then YearMakeModel(v)
    else v.vin
  }

  /** f"{display_name} {suffix}". */
  function EntityName(v: Vehicle, suffix: string): string
  {
    DisplayName(v) + " " + suffix
  }

  /** The display name is never empty when the VIN is not: each of its three
      sources is non-empty whenever it is chosen. */
  lemma DisplayNameNonEmpty(v: Vehicle)
    requires v.vin != ""
    ensures DisplayName(v) != ""
  {
    if !StrTruthy(v.nickname) && HasYearMakeModel(v) {
      assert |YearMakeModel(v)| >= 1;
    }
  }

  /** Only the vehicle's attributes matter: two vehicles that differ only in their
      provider id get the same display name, and a truthy nickname hides the rest. */
  lemma DisplayNameIgnoresIdAndHiddenFields(v: Vehicle, w: Vehicle)
    requires v.vin == w.vin && v.nickname == w.nickname
    requires StrTruthy(v.nickname) || (v.year == w.year && v.make == w.make && v.model == w.model)
    ensures DisplayName(v) == DisplayName(w)
  {
  }

  /** The suffix of an entity name can be read back from the name. */
  lemma {:induction false} EntityNameLabelInjective(v: Vehicle, s1: string, s2: string)
    requires EntityName(v, s1) == EntityName(v, s2)
    ensures s1 == s2
  {
    var prefix := DisplayName(v) + " ";
    assert EntityName(v, s1) == prefix + s1 && EntityName(v, s2) == prefix + s2;
    assert s1 == (prefix + s1)[|prefix|..];
    assert s2 == (prefix + s2)[|prefix|..];
  }

  /** The vehicles' provider ids, in order. */
  function Ids(vehicles: seq<Vehicle>): seq<string>
  {
    seq(|vehicles|, k requires 0 <= k < |vehicles| => vehicles[k].id)
  }

  lemma IdsPrefix(vehicles: seq<Vehicle>, i: nat)
    requires i < |vehicles|
    ensures Ids(vehicles[..i + 1]) == Ids(vehicles[..i]) + [vehicles[i].id]
  {
  }

  /** f"{vin}_{suffix}", the unique id pattern of every entity. */
  function UniqueId(vin: string, suffix: string): string
  {
    vin + "_" + suffix
  }

  /** Unique ids built from VINs without an underscore (a VIN is 17 letters and
      digits) identify the VIN and the suffix. */
  lemma UniqueIdInjective(vin1: string, s1: string, vin2: string, s2: string)
    requires '_' !in vin1 && '_' !in vin2
    ensures UniqueId(vin1, s1) == UniqueId(vin2, s2) <==> vin1 == vin2 && s1 == s2
  {
    if UniqueId(vin1, s1) == UniqueId(vin2, s2) {
      Text.JoinedIdInjective(vin1, s1, vin2, s2, '_');
    }
  }

  /** The `device_info` mapping: identifiers, and the optional `via_device`. */
  datatype DeviceInfo = DeviceInfo(identifiers: set<(string, string)>, viaDevice: Option<(string, string)>)

  /** The calls the entities make on the vehicle client, with the identifier passed. */
  datatype ClientCall =
    | LockDoors(vehicleId: string)
    | UnlockDoors(vehicleId: string)
    | StartCharge(vehicleId: string)
    | StopCharge(vehicleId: string)
    | StartClimate(vin: string)
    | StopClimate(vin: string)
    | SetChargeLimit(vehicleId: string, limit: int)

  /** What an HTTP request to the vehicle API came to: a response with a status
      code, or an exception (connection error, timeout, ...). */
  datatype HttpOutcome = Responded(status: int) | Failed

  // Per-vehicle answers fetched during platform setup

  /** `set(signals)`, or the empty set when the signals call raised (None). */
  function AvailableSignals(fetched: Option<seq<string>>): set<string>
  {
    if fetched.Some? then set s | s in fetched.value else {}
  }

  /** `get_permissions`, or `[]` when the call raised. */
  function Permissions(fetched: Option<seq<string>>): seq<string>
  {
    if fetched.Some? then fetched.value else []
  }

  /** The gate of the charge-control entities (charge limit and charging switch):
      their signal is reported, or no signals are known, and the charge-control
      permission was granted. */
  predicate ControlGate(signalId: string, available: set<string>, permissions: seq<string>)
  {
    (signalId in available || available == {}) && "control_charge" in permissions
  }

  /** The vehicle, when it gets a charge-control entity for `signalId`. */
  function ControlStep(signalId: string, vehicle: Vehicle, signals: Option<seq<string>>, permissions: Option<seq<string>>): (r: seq<Vehicle>)
    ensures r == [] || r == [vehicle]
    ensures permissions.None? ==> r == []
    ensures signals.None? ==> (r == [vehicle] <==> "control_charge" in Permissions(permissions))
  {
    if ControlGate(signalId, AvailableSignals(signals), Permissions(permissions)) then [vehicle] else []
  }

  /** The vehicles among the first `n` that get a charge-control entity for
      `signalId`, in order. */
  function ControlPlanned(signalId: string, vehicles: seq<Vehicle>, signals: seq<Option<seq<string>>>,
                          permissions: seq<Option<seq<string>>>, n: nat): seq<Vehicle>
    requires |signals| == |vehicles| && |permissions| == |vehicles| && n <= |vehicles|
  {
    if n == 0 then []
    else ControlPlanned(signalId, vehicles, signals, permissions, n - 1)
         + ControlStep(signalId, vehicles[n - 1], signals[n - 1], permissions[n - 1])
  }

  /** The plan of the first `n + 1` vehicles extends the plan of the first `n`. */
  lemma ControlPlannedNext(signalId: string, vehicles: seq<Vehicle>, signals: seq<Option<seq<string>>>,
                           permissions: seq<Option<seq<string>>>, n: nat)
    requires |signals| == |vehicles| && |permissions| == |vehicles| && n < |vehicles|
    ensures ControlPlanned(signalId, vehicles, signals, permissions, n + 1)
         == ControlPlanned(signalId, vehicles, signals, permissions, n) + ControlStep(signalId, vehicles[n], signals[n], permissions[n])
  {
  }

  /** Only the first `n` vehicles are planned. */
  lemma {:induction false} ControlPlannedWithin(signalId: string, vehicles: seq<Vehicle>, signals: seq<Option<seq<string>>>,
                                                permissions: seq<Option<seq<string>>>, n: nat)
    requires |signals| == |vehicles| && |permissions| == |vehicles| && n <= |vehicles|
    ensures forall v | v in ControlPlanned(signalId, vehicles, signals, permissions, n) :: v in vehicles[..n]
  {
    if n > 0 {
      ControlPlannedWithin(signalId, vehicles, signals, permissions, n - 1);
      assert vehicles[..n] == vehicles[..n - 1] + [vehicles[n - 1]];
    }
  }

  /** With distinct vehicle ids, a vehicle gets the entity exactly when it passes the
      gate; in particular never when its permissions could not be fetched. */
  lemma {:induction false} ControlPlannedIff(signalId: string, vehicles: seq<Vehicle>, signals: seq<Option<seq<string>>>,
                                             permissions: seq<Option<seq<string>>>, n: nat, k: nat)
    requires |signals| == |vehicles| && |permissions| == |vehicles| && k < n <= |vehicles|
    requires forall i, j | 0 <= i < j < |vehicles| :: vehicles[i].id != vehicles[j].id
    ensures vehicles[k] in ControlPlanned(signalId, vehicles, signals, permissions, n)
        <==> ControlGate(signalId, AvailableSignals(signals[k]), Permissions(permissions[k]))
    ensures permissions[k].None? ==> vehicles[k] !in ControlPlanned(signalId, vehicles, signals, permissions, n)
  {
    ControlPlannedWithin(signalId, vehicles, signals, permissions, n - 1);
    if k < n - 1 {
      assert vehicles[k] != vehicles[n - 1];
      ControlPlannedIff(signalId, vehicles, signals, permissions, n - 1, k);
    }
  }
}
